/**
 The shared data shapes of a screenshot analysis: colour tokens, type styles, spacing data,
 the aggregate result and the application state. The documented ranges are predicates,
 because nothing in the application enforces them.
 */
module Types {
  import opened Wrappers

  /** The six semantic roles a colour token can carry. */
  datatype Role = Background | Primary | Secondary | Accent | Text | Neutral

  /** The role's literal spelling, as it appears in exported variable names. */
  function RoleName(r: Role): (s: string)
    ensures |s| >= 1
    ensures '\n' !in s
  {
    match r
    case Background => "background"
    case Primary => "primary"
    case Secondary => "secondary"
    case Accent => "accent"
    case Text => "text"
    case Neutral => "neutral"
  }

  /** Reads a role from its spelling; any other string is not a role. */
  function ParseRole(s: string): Option<Role>
  {
    if s == "background" then Some(Background)
    else if s == "primary" then Some(Primary)
    else if s == "secondary" then Some(Secondary)
    else if s == "accent" then Some(Accent)
    else if s == "text" then Some(Text)
    else if s == "neutral" then Some(Neutral)
    else None
  }

  /** A role is exactly one of the six spellings, and every spelling names one role. */
  lemma RoleNameRoundTrip(r: Role, s: string)
    ensures ParseRole(RoleName(r)) == Some(r)
    ensures ParseRole(s) == Some(r) <==> s == RoleName(r)
  {
  }

  /** `name` is the only optional field; `usage` is a number documented as a fraction. */
  datatype ColorToken = ColorToken(hex: string, role: Role, usage: real, name: Option<string>)

  datatype TypeStyle = TypeStyle(
    id: string,
    styleLabel: string, // `label` in the source; a reserved word in Dafny
    fontFamilyGuess: string,
    fontSizePx: int,
    fontWeight: int,
    lineHeightPx: int,
    letterSpacingPx: int)

  datatype SpacingData = SpacingData(rawDistances: seq<int>, scale: seq<int>, baseUnit: int)

  /** The primary and the extended palette, kept apart. */
  datatype Palette = Palette(primary: seq<ColorToken>, extended: seq<ColorToken>)

  datatype AnalysisResult = AnalysisResult(
    id: string,
    timestamp: int,
    imageUrl: string,
    colors: Palette,
    typography: seq<TypeStyle>,
    spacing: SpacingData)

  datatype Status = Idle | Analyzing | Complete | Error

  datatype AnalysisState = AnalysisState(
    status: Status,
    currentResult: Option<AnalysisResult>,
    history: seq<AnalysisResult>,
    errorMsg: Option<string>)

  /** The documented range of `usage`: a fraction of the screenshot, from 0 to 1. */
  predicate UsageIsFraction(c: ColorToken) {
    0.0 <= c.usage <= 1.0
  }

  predicate PaletteUsagesAreFractions(p: Palette) {
    && (forall i :: 0 <= i < |p.primary| ==> UsageIsFraction(p.primary[i]))
    && (forall i :: 0 <= i < |p.extended| ==> UsageIsFraction(p.extended[i]))
  }
}
