/** The active-level card: the three-way warning tier of the current caffeine
    level and the colour, background and description shown for it. The level and
    the tier table come from the stats library and are parameters here. */
module Stats {

  datatype Tier = Low | Moderate | High

  /** One row of the tier table. */
  datatype StatusLevel = StatusLevel(maxLevel: real, color: string, background: string, description: string)

  /** The tier table, one row per tier. */
  datatype StatusLevels = StatusLevels(low: StatusLevel, moderate: StatusLevel, high: StatusLevel)

  /** The order of the tiers, for stating monotonicity. */
  function Rank(t: Tier): (r: nat)
    ensures r < 3
  {
    match t
    case Low => 0
    case Moderate => 1
    case High => 2
  }

  /** `warningLevel`: below the low bound is low, else below the moderate bound is
      moderate, else high. */
  function WarningLevel(level: real, levels: StatusLevels): (t: Tier)
    ensures t == Low <==> level < levels.low.maxLevel
    ensures t == Moderate <==> levels.low.maxLevel <= level < levels.moderate.maxLevel
    ensures t == High <==> levels.low.maxLevel <= level && levels.moderate.maxLevel <= level
  {
    if level < levels.low.maxLevel then Low
    else if level < levels.moderate.maxLevel then Moderate
    else High
  }

  /** `statusLevels[warningLevel]`: the row whose key is the tier's text. */
  function Record(levels: StatusLevels, t: Tier): (r: StatusLevel)
    ensures Label(t) == "low" ==> r == levels.low
    ensures Label(t) == "moderate" ==> r == levels.moderate
    ensures Label(t) == "high" ==> r == levels.high
  {
    match t
    case Low => levels.low
    case Moderate => levels.moderate
    case High => levels.high
  }

  /** The text shown for a tier, which is also the key of its row. */
  function Label(t: Tier): (s: string)
    ensures s in {"low", "moderate", "high"}
  {
    match t
    case Low => "low"
    case Moderate => "moderate"
    case High => "high"
  }

  lemma LabelInjective(a: Tier, b: Tier)
    requires Label(a) == Label(b)
    ensures a == b
  {
    match a
    case Low => assert Label(b)[0] == 'l';
    case Moderate => assert Label(b)[0] == 'm';
    case High => assert Label(b)[0] == 'h';
  }

  /** What the card shows next to the level. */
  datatype Badge = Badge(tierText: string, color: string, background: string, description: string)

  /** The card's badge: label, colour, background and description all belong to the
      row of the one tier the level falls in. */
  function ActiveLevelBadge(level: real, levels: StatusLevels): (b: Badge)
    ensures level < levels.low.maxLevel ==>
      b == Badge("low", levels.low.color, levels.low.background, levels.low.description)
    ensures levels.low.maxLevel <= level < levels.moderate.maxLevel ==>
      b == Badge("moderate", levels.moderate.color, levels.moderate.background,
                 levels.moderate.description)
    ensures levels.low.maxLevel <= level && levels.moderate.maxLevel <= level ==>
      b == Badge("high", levels.high.color, levels.high.background, levels.high.description)
    ensures b.tierText == "low" ==>
      b.color == levels.low.color && b.background == levels.low.background &&
      b.description == levels.low.description
    ensures b.tierText == "moderate" ==>
      b.color == levels.moderate.color && b.background == levels.moderate.background &&
      b.description == levels.moderate.description
    ensures b.tierText == "high" ==>
      b.color == levels.high.color && b.background == levels.high.background &&
      b.description == levels.high.description
    ensures b.tierText == "low" <==> level < levels.low.maxLevel
  {
    var t := WarningLevel(level, levels);
    var row := Record(levels, t);
    Badge(Label(t), row.color, row.background, row.description)
  }

  /** A level exactly at the low bound is never low; with ordered bounds, a level
      exactly at the moderate bound is high. */
  lemma Boundaries(levels: StatusLevels)
    ensures WarningLevel(levels.low.maxLevel, levels) != Low
    ensures levels.low.maxLevel < levels.moderate.maxLevel ==>
      WarningLevel(levels.low.maxLevel, levels) == Moderate
    ensures levels.low.maxLevel <= levels.moderate.maxLevel ==>
      WarningLevel(levels.moderate.maxLevel, levels) == High
  {
  }

  /** A higher level never gets a lower tier, whether or not the bounds are ordered. */
  lemma Monotone(a: real, b: real, levels: StatusLevels)
    requires a <= b
    ensures Rank(WarningLevel(a, levels)) <= Rank(WarningLevel(b, levels))
  {
  }

  /** With the moderate bound at or below the low bound the moderate tier is never chosen. */
  lemma ModerateUnreachableWhenBoundsInverted(level: real, levels: StatusLevels)
    requires levels.moderate.maxLevel <= levels.low.maxLevel
    ensures WarningLevel(level, levels) != Moderate
  {
  }
}
