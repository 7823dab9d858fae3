/**
 The export panel's text builders: the CSS custom-properties block, the Tailwind theme
 fragment and the name of the downloaded JSON file. Each builder follows its template
 literal piece by piece; a second, line-by-line definition of each text is proved to be what
 the template produces, and splitting the text at line breaks gives back those lines.
 */
module Export {
  import opened Strings
  import opened Types

  const NL := "\n"

  /** Neither palette holds a hex value with a line break, so each token stays on one line. */
  predicate HexesOnOneLine(r: AnalysisResult) {
    && (forall i :: 0 <= i < |r.colors.primary| ==> '\n' !in r.colors.primary[i].hex)
    && (forall i :: 0 <= i < |r.colors.extended| ==> '\n' !in r.colors.extended[i].hex)
  }

  /** No type style's label holds a line break. */
  predicate LabelsOnOneLine(r: AnalysisResult) {
    forall i :: 0 <= i < |r.typography| ==> '\n' !in r.typography[i].styleLabel
  }

  // ---------------------------------------------------------------- CSS custom properties

  function PrimaryVarName(c: ColorToken): string {
    "--color-" + RoleName(c.role)
  }

  /** The name of the `n`-th extended colour, counting from 1. */
  function ExtendedVarName(n: nat): string {
    "--color-ext-" + NatToString(n)
  }

  function SpaceVarName(s: int): string {
    "--space-" + IntToString(s)
  }

  function PrimaryVar(c: ColorToken): string {
    "  " + PrimaryVarName(c) + ": " + c.hex + ";"
  }

  function ExtendedVar(c: ColorToken, n: nat): string {
    "  " + ExtendedVarName(n) + ": " + c.hex + ";"
  }

  function SpaceVar(s: int): string {
    "  " + SpaceVarName(s) + ": " + IntToString(s) + "px;"
  }

  function PrimaryVars(cs: seq<ColorToken>): (ls: seq<string>)
    ensures |ls| == |cs|
  {
    seq(|cs|, i requires 0 <= i < |cs| => PrimaryVar(cs[i]))
  }

  /** Extended colours are numbered by position, from 1. */
  function ExtendedVars(cs: seq<ColorToken>): (ls: seq<string>)
    ensures |ls| == |cs|
  {
    seq(|cs|, i requires 0 <= i < |cs| => ExtendedVar(cs[i], i + 1))
  }

  function SpaceVars(scale: seq<int>): (ls: seq<string>)
    ensures |ls| == |scale|
  {
    seq(|scale|, i requires 0 <= i < |scale| => SpaceVar(scale[i]))
  }

  /** The fixed lines of the CSS block's template. */
  const RootOpen := ":root {"
  const ColorsComment := "  /* Colors */"
  const SpacingComment := "  /* Spacing */"
  const RootClose := "}"

  /** The CSS block, following its template literal: the fixed lines, and each group of
      variables joined with line breaks in the place of its `${...}`. */
  function CssVars(r: AnalysisResult): (css: string)
    ensures css == Join(CssLines(r), NL)
  {
    CssShapeJoin(PrimaryVars(r.colors.primary), ExtendedVars(r.colors.extended), SpaceVars(r.spacing.scale));
    RootOpen + NL + ColorsComment + NL
    + Join(PrimaryVars(r.colors.primary), NL) + NL
    + Join(ExtendedVars(r.colors.extended), NL) + NL
    + NL + SpacingComment + NL
    + Join(SpaceVars(r.spacing.scale), NL) + NL
    + RootClose
  }

  /** The CSS block's lines around any three groups of variable lines: a header, the
      groups with a blank line and a comment before the last, the closing brace. An empty
      group occupies one blank line. */
  function CssShape(b: seq<string>, c: seq<string>, e: seq<string>): (ls: seq<string>)
    ensures |ls| == GroupLines(|b|) + GroupLines(|c|) + GroupLines(|e|) + 5
  {
    [RootOpen, ColorsComment] + (OrBlank(b) + (OrBlank(c) + (["", SpacingComment] + (OrBlank(e) + [RootClose]))))
  }

  /** The CSS block line by line. */
  function CssLines(r: AnalysisResult): (ls: seq<string>)
    ensures |ls| ==
      GroupLines(|r.colors.primary|) + GroupLines(|r.colors.extended|) + GroupLines(|r.spacing.scale|) + 5
  {
    CssShape(PrimaryVars(r.colors.primary), ExtendedVars(r.colors.extended), SpaceVars(r.spacing.scale))
  }

  lemma CssShapeFixed(b: seq<string>, c: seq<string>, e: seq<string>)
    ensures var ls := CssShape(b, c, e);
            var p := GroupLines(|b|);
            var q := GroupLines(|c|);
      && ls[..2] == [RootOpen, ColorsComment]
      && ls[2 + p + q] == "" && ls[3 + p + q] == SpacingComment
      && ls[|ls| - 1] == RootClose
  {
    var t5 := OrBlank(e) + [RootClose];
    var t4 := ["", SpacingComment] + t5;
    var t3 := OrBlank(c) + t4;
    var t2 := OrBlank(b) + t3;
    var ls := [RootOpen, ColorsComment] + t2;
    assert ls == CssShape(b, c, e);
    assert ls[2..] == t2;
    assert t2[|OrBlank(b)|..] == t3;
    assert t3[|OrBlank(c)|..] == t4;
    assert ls[|ls| - 1] == t5[|t5| - 1];
  }

  lemma CssShapeFirstGroup(b: seq<string>, c: seq<string>, e: seq<string>, i: nat)
    requires i < |b|
    ensures CssShape(b, c, e)[2 + i] == b[i]
  {
    var t2 := OrBlank(b) + (OrBlank(c) + (["", SpacingComment] + (OrBlank(e) + [RootClose])));
    assert CssShape(b, c, e)[2 + i] == t2[i];
  }

  lemma CssShapeSecondGroup(b: seq<string>, c: seq<string>, e: seq<string>, i: nat)
    requires i < |c|
    ensures CssShape(b, c, e)[2 + GroupLines(|b|) + i] == c[i]
  {
    var t3 := OrBlank(c) + (["", SpacingComment] + (OrBlank(e) + [RootClose]));
    var t2 := OrBlank(b) + t3;
    assert CssShape(b, c, e)[2 + |OrBlank(b)| + i] == t2[|OrBlank(b)| + i] == t3[i];
  }

  lemma CssShapeThirdGroup(b: seq<string>, c: seq<string>, e: seq<string>, i: nat)
    requires i < |e|
    ensures CssShape(b, c, e)[4 + GroupLines(|b|) + GroupLines(|c|) + i] == e[i]
  {
    var t5 := OrBlank(e) + [RootClose];
    var t4 := ["", SpacingComment] + t5;
    var t3 := OrBlank(c) + t4;
    var t2 := OrBlank(b) + t3;
    var k := 4 + |OrBlank(b)| + |OrBlank(c)| + i;
    assert CssShape(b, c, e)[k] == t2[k - 2] == t3[k - 2 - |OrBlank(b)|];
    assert t3[k - 2 - |OrBlank(b)|] == t4[2 + i] == t5[i];
  }

  /** The block opens with `:root {` and the colours comment, has a blank line and the
      spacing comment after the colour groups, and closes with `}`. */
  lemma CssFixedLines(r: AnalysisResult)
    ensures var ls := CssLines(r);
            var p := GroupLines(|r.colors.primary|);
            var e := GroupLines(|r.colors.extended|);
      && ls[..2] == [RootOpen, ColorsComment] && ls[|ls| - 1] == RootClose
      && ls[2 + p + e] == "" && ls[3 + p + e] == SpacingComment
  {
    CssShapeFixed(PrimaryVars(r.colors.primary), ExtendedVars(r.colors.extended), SpaceVars(r.spacing.scale));
  }

  /** From the third line, one `--color-<role>` line per primary colour, in input order. */
  lemma CssPrimaryLines(r: AnalysisResult)
    ensures forall i :: 0 <= i < |r.colors.primary| ==>
      CssLines(r)[2 + i] == PrimaryVar(r.colors.primary[i])
  {
    forall i | 0 <= i < |r.colors.primary|
      ensures CssLines(r)[2 + i] == PrimaryVar(r.colors.primary[i])
    {
      CssShapeFirstGroup(PrimaryVars(r.colors.primary), ExtendedVars(r.colors.extended), SpaceVars(r.spacing.scale), i);
    }
  }

  /** Then one `--color-ext-<n>` line per extended colour, `n` running from 1 in input order. */
  lemma CssExtendedLines(r: AnalysisResult)
    ensures forall i :: 0 <= i < |r.colors.extended| ==>
      CssLines(r)[2 + GroupLines(|r.colors.primary|) + i] == ExtendedVar(r.colors.extended[i], i + 1)
  {
    var b, c, e := PrimaryVars(r.colors.primary), ExtendedVars(r.colors.extended), SpaceVars(r.spacing.scale);
    CssExtendedAt(CssLines(r), b, c, e, GroupLines(|r.colors.primary|), r.colors.extended);
  }

  /** The second group's lines, stated at a given length of the first group. */
  lemma CssExtendedAt(ls: seq<string>, b: seq<string>, c: seq<string>, e: seq<string>, p: nat, xs: seq<ColorToken>)
    requires ls == CssShape(b, c, e) && p == GroupLines(|b|) && c == ExtendedVars(xs)
    ensures forall i :: 0 <= i < |xs| ==> ls[2 + p + i] == ExtendedVar(xs[i], i + 1)
  {
    forall i | 0 <= i < |xs|
      ensures ls[2 + p + i] == ExtendedVar(xs[i], i + 1)
    {
      CssShapeSecondGroup(b, c, e, i);
    }
  }

  /** After the spacing comment, one `--space-<s>: <s>px;` line per scale value, in order. */
  lemma CssSpaceLines(r: AnalysisResult)
    ensures var p := GroupLines(|r.colors.primary|);
            var e := GroupLines(|r.colors.extended|);
      forall i :: 0 <= i < |r.spacing.scale| ==>
        CssLines(r)[4 + p + e + i] == SpaceVar(r.spacing.scale[i])
  {
    forall i | 0 <= i < |r.spacing.scale|
      ensures CssLines(r)[4 + GroupLines(|r.colors.primary|) + GroupLines(|r.colors.extended|) + i]
        == SpaceVar(r.spacing.scale[i])
    {
      CssShapeThirdGroup(PrimaryVars(r.colors.primary), ExtendedVars(r.colors.extended), SpaceVars(r.spacing.scale), i);
    }
  }

  lemma CssShapeJoin(b: seq<string>, c: seq<string>, e: seq<string>)
    ensures Join(CssShape(b, c, e), NL) ==
      RootOpen + NL + ColorsComment + NL + Join(b, NL) + NL + Join(c, NL) + NL
      + NL + SpacingComment + NL + Join(e, NL) + NL + RootClose
  {
    var b', c', e' := OrBlank(b), OrBlank(c), OrBlank(e);
    var t5 := e' + [RootClose];
    var t4 := ["", SpacingComment] + t5;
    var t3 := c' + t4;
    var t2 := b' + t3;
    var a := [RootOpen, ColorsComment];
    JoinPair(RootOpen, ColorsComment, NL);
    JoinPair("", SpacingComment, NL);
    JoinAppend(e', [RootClose], NL);
    JoinAppend(["", SpacingComment], t5, NL);
    JoinAppend(c', t4, NL);
    JoinAppend(b', t3, NL);
    JoinAppend(a, t2, NL);
    JoinOrBlank(b, NL);
    JoinOrBlank(c, NL);
    JoinOrBlank(e, NL);
    var jb, jc, je := Join(b, NL), Join(c, NL), Join(e, NL);
    calc {
      Join(CssShape(b, c, e), NL);
      Join(a + t2, NL);
      (RootOpen + NL + ColorsComment) + NL
        + (jb + NL + (jc + NL + (("" + NL + SpacingComment) + NL + (je + NL + RootClose))));
      { CssReassociate(RootOpen, NL, ColorsComment, jb, jc, SpacingComment, je, RootClose); }
      RootOpen + NL + ColorsComment + NL + jb + NL + jc + NL + NL + SpacingComment + NL + je + NL + RootClose;
    }
  }

  /** The string concatenation behind `CssShapeJoin`, for arbitrary pieces. */
  lemma CssReassociate(x0: string, n: string, x1: string, x2: string, x3: string, x4: string, x5: string, x6: string)
    ensures (x0 + n + x1) + n + (x2 + n + (x3 + n + (("" + n + x4) + n + (x5 + n + x6))))
         == x0 + n + x1 + n + x2 + n + x3 + n + n + x4 + n + x5 + n + x6
  {
  }

  /** The CSS block's lines are free of line breaks when every group's lines are. */
  lemma CssShapeOneLine(b: seq<string>, c: seq<string>, e: seq<string>)
    requires OneLineEach(b) && OneLineEach(c) && OneLineEach(e)
    ensures OneLineEach(CssShape(b, c, e))
  {
    var b', c', e' := OrBlank(b), OrBlank(c), OrBlank(e);
    var t5 := e' + [RootClose];
    var t4 := ["", SpacingComment] + t5;
    var t3 := c' + t4;
    var t2 := b' + t3;
    OneLineEachAppend(e', [RootClose]);
    OneLineEachAppend(["", SpacingComment], t5);
    OneLineEachAppend(c', t4);
    OneLineEachAppend(b', t3);
    OneLineEachAppend([RootOpen, ColorsComment], t2);
  }

  /** Every line of the CSS block is free of line breaks. */
  lemma CssLinesOneLineEach(r: AnalysisResult)
    requires HexesOnOneLine(r)
    ensures OneLineEach(CssLines(r))
  {
    var b := PrimaryVars(r.colors.primary);
    var c := ExtendedVars(r.colors.extended);
    var e := SpaceVars(r.spacing.scale);
    forall i | 0 <= i < |c|
      ensures '\n' !in c[i]
    {
      IntTextHasNoBreak(i + 1);
    }
    forall i | 0 <= i < |e|
      ensures '\n' !in e[i]
    {
      IntTextHasNoBreak(r.spacing.scale[i]);
    }
    CssShapeOneLine(b, c, e);
  }

  /** Splitting the CSS block at line breaks gives exactly the line list. */
  lemma CssVarsLines(r: AnalysisResult)
    requires HexesOnOneLine(r)
    ensures Split(CssVars(r), '\n') == CssLines(r)
  {
    CssLinesOneLineEach(r);
    SplitJoin(CssLines(r), '\n');
  }

  /** A line that declares a custom property. */
  predicate IsVarLine(l: string) {
    |l| >= 4 && l[..4] == "  --"
  }

  function CountVarLines(ls: seq<string>): (n: nat)
    ensures n <= |ls|
  {
    if |ls| == 0 then 0 else (if IsVarLine(ls[0]) then 1 else 0) + CountVarLines(ls[1..])
  }

  lemma {:induction false} CountVarLinesAppend(a: seq<string>, b: seq<string>)
    ensures CountVarLines(a + b) == CountVarLines(a) + CountVarLines(b)
  {
    if |a| > 0 {
      assert (a + b)[0] == a[0];
      assert (a + b)[1..] == a[1..] + b;
      CountVarLinesAppend(a[1..], b);
    } else {
      assert a + b == b;
    }
  }

  lemma {:induction false} CountAllVarLines(ls: seq<string>)
    requires forall i :: 0 <= i < |ls| ==> IsVarLine(ls[i])
    ensures CountVarLines(ls) == |ls|
  {
    if |ls| > 0 {
      CountAllVarLines(ls[1..]);
    }
  }

  lemma CssShapeCount(b: seq<string>, c: seq<string>, e: seq<string>)
    requires forall i :: 0 <= i < |b| ==> IsVarLine(b[i])
    requires forall i :: 0 <= i < |c| ==> IsVarLine(c[i])
    requires forall i :: 0 <= i < |e| ==> IsVarLine(e[i])
    ensures CountVarLines(CssShape(b, c, e)) == |b| + |c| + |e|
  {
    var b', c', e' := OrBlank(b), OrBlank(c), OrBlank(e);
    var t5 := e' + [RootClose];
    var t4 := ["", SpacingComment] + t5;
    var t3 := c' + t4;
    var t2 := b' + t3;
    CountAllVarLines(b);
    CountAllVarLines(c);
    CountAllVarLines(e);
    assert CountVarLines([RootClose]) == 0;
    assert CountVarLines([RootOpen, ColorsComment]) == 0 by {
      assert [RootOpen, ColorsComment][1..] == [ColorsComment];
      assert ColorsComment[2] == '/';
    }
    assert CountVarLines(["", SpacingComment]) == 0 by {
      assert ["", SpacingComment][1..] == [SpacingComment];
      assert SpacingComment[2] == '/';
    }
    CountVarLinesAppend(e', [RootClose]);
    CountVarLinesAppend(["", SpacingComment], t5);
    CountVarLinesAppend(c', t4);
    CountVarLinesAppend(b', t3);
    CountVarLinesAppend([RootOpen, ColorsComment], t2);
  }

  /** The block declares one variable per primary colour, per extended colour and per scale
      value, and no other line declares one. */
  lemma CssVarCount(r: AnalysisResult)
    ensures CountVarLines(CssLines(r)) ==
      |r.colors.primary| + |r.colors.extended| + |r.spacing.scale|
  {
    CssShapeCount(PrimaryVars(r.colors.primary), ExtendedVars(r.colors.extended), SpaceVars(r.spacing.scale));
  }

  /** Primary variables are named by role alone: two colours share a name exactly when
      they share a role, so a repeated role is declared twice under one name. */
  lemma PrimaryNamesFollowRoles(c: ColorToken, d: ColorToken)
    ensures PrimaryVarName(c) == PrimaryVarName(d) <==> c.role == d.role
  {
    if PrimaryVarName(c) == PrimaryVarName(d) {
      var k := |"--color-"|;
      assert RoleName(c.role) == PrimaryVarName(c)[k..];
      assert RoleName(d.role) == PrimaryVarName(d)[k..];
      RoleNameRoundTrip(c.role, RoleName(c.role));
      RoleNameRoundTrip(d.role, RoleName(d.role));
    }
  }

  /** Extended variables are numbered apart: distinct positions give distinct names. */
  lemma ExtendedNamesDistinct(m: nat, n: nat)
    ensures ExtendedVarName(m) == ExtendedVarName(n) <==> m == n
  {
    if ExtendedVarName(m) == ExtendedVarName(n) {
      var k := |"--color-ext-"|;
      assert NatToString(m) == ExtendedVarName(m)[k..];
      assert NatToString(n) == ExtendedVarName(n)[k..];
      NatToStringInjective(m, n);
    }
  }

  // ---------------------------------------------------------------- Tailwind configuration

  /** The indentation of every entry line in the Tailwind fragment. */
  const Indent := "        "

  /** The fixed lines of the Tailwind fragment's template. */
  const ModuleOpen := "module.exports = {"
  const ThemeOpen := "  theme: {"
  const ExtendOpen := "    extend: {"
  const ColorsOpen := "      colors: {"
  const SectionClose := "      },"
  const FontSizeOpen := "      fontSize: {"
  const SpacingOpen := "      spacing: {"
  const LastSectionClose := "      }"
  const ExtendClose := "    }"
  const ThemeClose := "  }"
  const ModuleClose := "}"

  function ColorEntry(c: ColorToken): string {
    RoleName(c.role) + ": '" + c.hex + "',"
  }

  /** A font-size entry: the lower-cased label, then size, line height and letter spacing. */
  function FontSizeEntry(t: TypeStyle): string {
    "'" + ToLower(t.styleLabel) + "': ['" + IntToString(t.fontSizePx)
    + "px', { lineHeight: '" + IntToString(t.lineHeightPx)
    + "px', letterSpacing: '" + IntToString(t.letterSpacingPx) + "px' }],"
  }

  function SpacingEntry(s: int): string {
    "'" + IntToString(s) + "': '" + IntToString(s) + "px',"
  }

  function ColorEntries(cs: seq<ColorToken>): (ls: seq<string>)
    ensures |ls| == |cs|
  {
    seq(|cs|, i requires 0 <= i < |cs| => ColorEntry(cs[i]))
  }

  function FontSizeEntries(ts: seq<TypeStyle>): (ls: seq<string>)
    ensures |ls| == |ts|
  {
    seq(|ts|, i requires 0 <= i < |ts| => FontSizeEntry(ts[i]))
  }

  function SpacingEntries(scale: seq<int>): (ls: seq<string>)
    ensures |ls| == |scale|
  {
    seq(|scale|, i requires 0 <= i < |scale| => SpacingEntry(scale[i]))
  }

  /** One section of the template: the entries joined with a line break and the
      indentation, after one indentation, as `        ${entries.join('\n        ')}`. */
  function SectionText(entries: seq<string>): string {
    Indent + Join(entries, NL + Indent)
  }

  /** The template's fifteen lines for any three sections of entries. */
  function TailwindTemplate(c: seq<string>, f: seq<string>, s: seq<string>): seq<string> {
    [ModuleOpen, ThemeOpen, ExtendOpen, ColorsOpen,
     SectionText(c),
     SectionClose, FontSizeOpen,
     SectionText(f),
     SectionClose, SpacingOpen,
     SectionText(s),
     LastSectionClose, ExtendClose, ThemeClose, ModuleClose]
  }

  /** The Tailwind fragment, following its template literal: fifteen lines joined with line
      breaks, where the colours, font sizes and spacing sections stand in place of their
      `${...}`. */
  function TailwindConfig(r: AnalysisResult): (config: string)
    ensures config == Join(TailwindLines(r), NL)
  {
    TailwindShapeJoin(ColorEntries(r.colors.primary), FontSizeEntries(r.typography), SpacingEntries(r.spacing.scale));
    Join(TailwindTemplate(ColorEntries(r.colors.primary), FontSizeEntries(r.typography), SpacingEntries(r.spacing.scale)), NL)
  }

  /** The entry lines of one section, indented; an empty section leaves one line holding
      only the indentation. */
  function Section(entries: seq<string>): (ls: seq<string>)
    ensures |ls| == GroupLines(|entries|)
  {
    PrefixAll(Indent, OrBlank(entries))
  }

  /** The Tailwind fragment's lines around any three sections of entries. */
  function TailwindShape(c: seq<string>, f: seq<string>, s: seq<string>): (ls: seq<string>)
    ensures |ls| == GroupLines(|c|) + GroupLines(|f|) + GroupLines(|s|) + 12
  {
    [ModuleOpen, ThemeOpen, ExtendOpen, ColorsOpen]
    + (Section(c) + ([SectionClose, FontSizeOpen] + (Section(f) + ([SectionClose, SpacingOpen]
    + (Section(s) + [LastSectionClose, ExtendClose, ThemeClose, ModuleClose])))))
  }

  /** The Tailwind fragment line by line. */
  function TailwindLines(r: AnalysisResult): (ls: seq<string>)
    ensures |ls| ==
      GroupLines(|r.colors.primary|) + GroupLines(|r.typography|) + GroupLines(|r.spacing.scale|) + 12
  {
    TailwindShape(ColorEntries(r.colors.primary), FontSizeEntries(r.typography), SpacingEntries(r.spacing.scale))
  }

  lemma TailwindShapeFixed(c: seq<string>, f: seq<string>, s: seq<string>)
    ensures var ls := TailwindShape(c, f, s);
            var p := GroupLines(|c|);
            var q := GroupLines(|f|);
            var t := GroupLines(|s|);
      && ls[..4] == [ModuleOpen, ThemeOpen, ExtendOpen, ColorsOpen]
      && ls[4 + p] == SectionClose && ls[5 + p] == FontSizeOpen
      && ls[6 + p + q] == SectionClose && ls[7 + p + q] == SpacingOpen
      && ls[8 + p + q + t..] == [LastSectionClose, ExtendClose, ThemeClose, ModuleClose]
  {
    var t6 := Section(s) + [LastSectionClose, ExtendClose, ThemeClose, ModuleClose];
    var t5 := [SectionClose, SpacingOpen] + t6;
    var t4 := Section(f) + t5;
    var t3 := [SectionClose, FontSizeOpen] + t4;
    var t2 := Section(c) + t3;
    var ls := [ModuleOpen, ThemeOpen, ExtendOpen, ColorsOpen] + t2;
    assert ls == TailwindShape(c, f, s);
    assert ls[4..] == t2;
    assert t2[|Section(c)|..] == t3;
    assert t3[2..] == t4;
    assert t4[|Section(f)|..] == t5;
    assert t5[2..] == t6;
    assert t6[|Section(s)|..] == [LastSectionClose, ExtendClose, ThemeClose, ModuleClose];
  }

  lemma TailwindShapeColors(c: seq<string>, f: seq<string>, s: seq<string>, i: nat)
    requires i < |c|
    ensures TailwindShape(c, f, s)[4 + i] == Indent + c[i]
  {
    var t2 := Section(c) + ([SectionClose, FontSizeOpen] + (Section(f) + ([SectionClose, SpacingOpen]
      + (Section(s) + [LastSectionClose, ExtendClose, ThemeClose, ModuleClose]))));
    assert TailwindShape(c, f, s)[4 + i] == t2[i] == Section(c)[i];
  }

  lemma TailwindShapeFontSizes(c: seq<string>, f: seq<string>, s: seq<string>, i: nat)
    requires i < |f|
    ensures TailwindShape(c, f, s)[6 + GroupLines(|c|) + i] == Indent + f[i]
  {
    var t4 := Section(f) + ([SectionClose, SpacingOpen]
      + (Section(s) + [LastSectionClose, ExtendClose, ThemeClose, ModuleClose]));
    var t3 := [SectionClose, FontSizeOpen] + t4;
    var t2 := Section(c) + t3;
    assert TailwindShape(c, f, s)[6 + GroupLines(|c|) + i] == t2[2 + |Section(c)| + i] == t3[2 + i] == t4[i];
  }

  lemma TailwindShapeSpacing(c: seq<string>, f: seq<string>, s: seq<string>, i: nat)
    requires i < |s|
    ensures TailwindShape(c, f, s)[8 + GroupLines(|c|) + GroupLines(|f|) + i] == Indent + s[i]
  {
    var t6 := Section(s) + [LastSectionClose, ExtendClose, ThemeClose, ModuleClose];
    var t5 := [SectionClose, SpacingOpen] + t6;
    var t4 := Section(f) + t5;
    var t3 := [SectionClose, FontSizeOpen] + t4;
    var t2 := Section(c) + t3;
    var h := [ModuleOpen, ThemeOpen, ExtendOpen, ColorsOpen];
    assert TailwindShape(c, f, s) == h + t2;
    var j := 4 + |Section(f)| + i;
    IndexAfter(h, t2, |Section(c)| + j);
    IndexAfter(Section(c), t3, j);
    IndexAfter([SectionClose, FontSizeOpen], t4, |Section(f)| + 2 + i);
    IndexAfter(Section(f), t5, 2 + i);
    IndexAfter([SectionClose, SpacingOpen], t6, i);
  }

  /** Indexing past the first part of a concatenation indexes the second. */
  lemma IndexAfter<T>(a: seq<T>, b: seq<T>, j: nat)
    requires j < |b|
    ensures (a + b)[|a| + j] == b[j]
  {
  }

  /** The fragment opens `module.exports`, `theme`, `extend` and `colors`, separates the
      sections with `},` and the next section's opening line, and closes all four blocks. */
  lemma TailwindFixedLines(r: AnalysisResult)
    ensures var ls := TailwindLines(r);
            var c := GroupLines(|r.colors.primary|);
            var f := GroupLines(|r.typography|);
            var s := GroupLines(|r.spacing.scale|);
      && ls[..4] == [ModuleOpen, ThemeOpen, ExtendOpen, ColorsOpen]
      && ls[4 + c] == SectionClose && ls[5 + c] == FontSizeOpen
      && ls[6 + c + f] == SectionClose && ls[7 + c + f] == SpacingOpen
      && ls[8 + c + f + s..] == [LastSectionClose, ExtendClose, ThemeClose, ModuleClose]
  {
    var ls := TailwindLines(r);
    var c, f, s := ColorEntries(r.colors.primary), FontSizeEntries(r.typography), SpacingEntries(r.spacing.scale);
    TailwindFixedAt(ls, c, f, s,
      GroupLines(|r.colors.primary|), GroupLines(|r.typography|), GroupLines(|r.spacing.scale|));
  }

  /** The fixed lines of the fragment, stated at given section lengths. */
  lemma TailwindFixedAt(ls: seq<string>, c: seq<string>, f: seq<string>, s: seq<string>, p: nat, q: nat, t: nat)
    requires ls == TailwindShape(c, f, s)
    requires p == GroupLines(|c|) && q == GroupLines(|f|) && t == GroupLines(|s|)
    ensures |ls| == p + q + t + 12
    ensures ls[..4] == [ModuleOpen, ThemeOpen, ExtendOpen, ColorsOpen]
    ensures ls[4 + p] == SectionClose && ls[5 + p] == FontSizeOpen
    ensures ls[6 + p + q] == SectionClose && ls[7 + p + q] == SpacingOpen
    ensures ls[8 + p + q + t..] == [LastSectionClose, ExtendClose, ThemeClose, ModuleClose]
  {
    TailwindShapeFixed(c, f, s);
  }

  /** The `colors` section holds one `<role>: '<hex>',` entry per primary colour, in order. */
  lemma TailwindColorLines(r: AnalysisResult)
    ensures forall i :: 0 <= i < |r.colors.primary| ==>
      TailwindLines(r)[4 + i] == Indent + ColorEntry(r.colors.primary[i])
  {
    forall i | 0 <= i < |r.colors.primary|
      ensures TailwindLines(r)[4 + i] == Indent + ColorEntry(r.colors.primary[i])
    {
      TailwindShapeColors(ColorEntries(r.colors.primary), FontSizeEntries(r.typography), SpacingEntries(r.spacing.scale), i);
    }
  }

  /** The `fontSize` section holds one entry per type style, in order, keyed by its
      lower-cased label. */
  lemma TailwindFontSizeLines(r: AnalysisResult)
    ensures var c := GroupLines(|r.colors.primary|);
      forall i :: 0 <= i < |r.typography| ==>
        TailwindLines(r)[6 + c + i] == Indent + FontSizeEntry(r.typography[i])
  {
    forall i | 0 <= i < |r.typography|
      ensures TailwindLines(r)[6 + GroupLines(|r.colors.primary|) + i] == Indent + FontSizeEntry(r.typography[i])
    {
      TailwindShapeFontSizes(ColorEntries(r.colors.primary), FontSizeEntries(r.typography), SpacingEntries(r.spacing.scale), i);
    }
  }

  /** The `spacing` section holds one `'<s>': '<s>px',` entry per scale value, in order. */
  lemma TailwindSpacingLines(r: AnalysisResult)
    ensures var c := GroupLines(|r.colors.primary|);
            var f := GroupLines(|r.typography|);
      forall i :: 0 <= i < |r.spacing.scale| ==>
        TailwindLines(r)[8 + c + f + i] == Indent + SpacingEntry(r.spacing.scale[i])
  {
    forall i | 0 <= i < |r.spacing.scale|
      ensures TailwindLines(r)[8 + GroupLines(|r.colors.primary|) + GroupLines(|r.typography|) + i]
        == Indent + SpacingEntry(r.spacing.scale[i])
    {
      TailwindShapeSpacing(ColorEntries(r.colors.primary), FontSizeEntries(r.typography), SpacingEntries(r.spacing.scale), i);
    }
  }

  /** An indented section of the template is the joined section lines. */
  lemma SectionJoin(entries: seq<string>)
    ensures Join([SectionText(entries)], NL) == Join(Section(entries), NL)
  {
    JoinOrBlank(entries, NL + Indent);
    JoinIndented(Indent, OrBlank(entries));
  }

  /** Expanding each section of the template into its lines keeps the joined text. */
  lemma TailwindShapeJoin(c: seq<string>, f: seq<string>, s: seq<string>)
    ensures Join(TailwindTemplate(c, f, s), NL) == Join(TailwindShape(c, f, s), NL)
  {
    var h := [ModuleOpen, ThemeOpen, ExtendOpen, ColorsOpen];
    var m1 := [SectionClose, FontSizeOpen];
    var m2 := [SectionClose, SpacingOpen];
    var z := [LastSectionClose, ExtendClose, ThemeClose, ModuleClose];
    var sc, sf, ss := Section(c), Section(f), Section(s);
    var xc, xf, xs := [SectionText(c)], [SectionText(f)], [SectionText(s)];
    assert TailwindTemplate(c, f, s) == h + (xc + (m1 + (xf + (m2 + (xs + z)))));
    SectionJoin(c);
    SectionJoin(f);
    SectionJoin(s);
    JoinSameSuffix(xs, ss, z, NL);
    JoinSamePrefix(m2, xs + z, ss + z, NL);
    JoinSamePrefix(xf, m2 + (xs + z), m2 + (ss + z), NL);
    JoinSameSuffix(xf, sf, m2 + (ss + z), NL);
    JoinSamePrefix(m1, xf + (m2 + (xs + z)), sf + (m2 + (ss + z)), NL);
    JoinSamePrefix(xc, m1 + (xf + (m2 + (xs + z))), m1 + (sf + (m2 + (ss + z))), NL);
    JoinSameSuffix(xc, sc, m1 + (sf + (m2 + (ss + z))), NL);
    JoinSamePrefix(h, xc + (m1 + (xf + (m2 + (xs + z)))), sc + (m1 + (sf + (m2 + (ss + z)))), NL);
  }

  /** Indenting a section's entries keeps each of them free of line breaks. */
  lemma SectionOneLine(entries: seq<string>)
    requires OneLineEach(entries)
    ensures OneLineEach(Section(entries))
  {
  }

  lemma TailwindShapeOneLine(c: seq<string>, f: seq<string>, s: seq<string>)
    requires OneLineEach(c) && OneLineEach(f) && OneLineEach(s)
    ensures OneLineEach(TailwindShape(c, f, s))
  {
    var z := [LastSectionClose, ExtendClose, ThemeClose, ModuleClose];
    var t6 := Section(s) + z;
    var t5 := [SectionClose, SpacingOpen] + t6;
    var t4 := Section(f) + t5;
    var t3 := [SectionClose, FontSizeOpen] + t4;
    var t2 := Section(c) + t3;
    assert TailwindShape(c, f, s) == [ModuleOpen, ThemeOpen, ExtendOpen, ColorsOpen] + t2;
    SectionOneLine(c);
    SectionOneLine(f);
    SectionOneLine(s);
    OneLineEachAppend(Section(s), z);
    OneLineEachAppend([SectionClose, SpacingOpen], t6);
    OneLineEachAppend(Section(f), t5);
    OneLineEachAppend([SectionClose, FontSizeOpen], t4);
    OneLineEachAppend(Section(c), t3);
    OneLineEachAppend([ModuleOpen, ThemeOpen, ExtendOpen, ColorsOpen], t2);
  }

  lemma FontSizeEntryOneLine(t: TypeStyle)
    requires '\n' !in t.styleLabel
    ensures '\n' !in FontSizeEntry(t)
  {
    ToLowerProperties(t.styleLabel);
    IntTextHasNoBreak(t.fontSizePx);
    IntTextHasNoBreak(t.lineHeightPx);
    IntTextHasNoBreak(t.letterSpacingPx);
  }

  /** Every line of the Tailwind fragment is free of line breaks. */
  lemma TailwindLinesOneLineEach(r: AnalysisResult)
    requires HexesOnOneLine(r) && LabelsOnOneLine(r)
    ensures OneLineEach(TailwindLines(r))
  {
    var c := ColorEntries(r.colors.primary);
    var f := FontSizeEntries(r.typography);
    var s := SpacingEntries(r.spacing.scale);
    forall i | 0 <= i < |f|
      ensures '\n' !in f[i]
    {
      FontSizeEntryOneLine(r.typography[i]);
    }
    forall i | 0 <= i < |s|
      ensures '\n' !in s[i]
    {
      IntTextHasNoBreak(r.spacing.scale[i]);
    }
    TailwindShapeOneLine(c, f, s);
  }

  /** Splitting the Tailwind fragment at line breaks gives exactly the line list. */
  lemma TailwindConfigLines(r: AnalysisResult)
    requires HexesOnOneLine(r) && LabelsOnOneLine(r)
    ensures Split(TailwindConfig(r), '\n') == TailwindLines(r)
  {
    TailwindLinesOneLineEach(r);
    SplitJoin(TailwindLines(r), '\n');
  }

  // ---------------------------------------------------------------- downloaded file

  /** The name the JSON download is saved under. */
  function DownloadName(id: string): (name: string)
    ensures |name| == |id| + 18
    ensures name[..13] == "snap_palette_" && name[|name| - 5..] == ".json"
    ensures name[13..|name| - 5] == id
  {
    "snap_palette_" + id + ".json"
  }

  /** Different results' ids give different file names. */
  lemma DownloadNameInjective(a: string, b: string)
    ensures DownloadName(a) == DownloadName(b) <==> a == b
  {
    if DownloadName(a) == DownloadName(b) {
      assert a == DownloadName(a)[13..|DownloadName(a)| - 5];
    }
  }
}
