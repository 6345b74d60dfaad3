/**
 * `CONFIDENCE_LEVELS` and `getConfidenceLevel`: a table of five levels in
 * declaration order, scanned for the first whose minimum the confidence
 * reaches, with `VERY_LOW` as the fallback.
 */
module ConfidenceLevels {

  datatype Level = VeryHigh | High | Medium | Low | VeryLow {

    /** The table key. */
    function Name(): string {
      match this
      case VeryHigh => "VERY_HIGH"
      case High => "HIGH"
      case Medium => "MEDIUM"
      case Low => "LOW"
      case VeryLow => "VERY_LOW"
    }

    /** Position in the table; a lower rank is a higher level. */
    function Rank(): nat {
      match this
      case VeryHigh => 0
      case High => 1
      case Medium => 2
      case Low => 3
      case VeryLow => 4
    }
  }

  datatype LevelConfig = LevelConfig(min: real, caption: string, color: string)

  datatype Entry = Entry(level: Level, config: LevelConfig)

  /** `CONFIDENCE_LEVELS` in declaration order. */
  const Table: seq<Entry> := [
    Entry(VeryHigh, LevelConfig(0.9, "Muy Alta", "#22c55e")),
    Entry(High, LevelConfig(0.7, "Alta", "#3b82f6")),
    Entry(Medium, LevelConfig(0.5, "Media", "#f59e0b")),
    Entry(Low, LevelConfig(0.3, "Baja", "#ef4444")),
    Entry(VeryLow, LevelConfig(0.0, "Muy Baja", "#991b1b"))
  ]

  /** The object returned: `{level, ...config, score: confidence}`. */
  datatype LevelInfo = LevelInfo(level: string, min: real, caption: string, color: string, score: real)

  function Describe(e: Entry, confidence: real): LevelInfo {
    LevelInfo(e.level.Name(), e.config.min, e.config.caption, e.config.color, confidence)
  }

  /** The level by its thresholds, stated independently of the table scan. */
  function LevelOf(confidence: real): Level {
    if confidence >= 0.9 then VeryHigh
    else if confidence >= 0.7 then High
    else if confidence >= 0.5 then Medium
    else if confidence >= 0.3 then Low
    else VeryLow
  }

  /** Each level occupies its own row of the table. */
  lemma TableRows()
    ensures |Table| == 5
    ensures forall i :: 0 <= i < |Table| ==> Table[i].level.Rank() == i
  {
  }

  /** `getConfidenceLevel(confidence)`. */
  method GetConfidenceLevel(confidence: real) returns (info: LevelInfo)
    ensures info == Describe(Table[LevelOf(confidence).Rank()], confidence)
    ensures info.score == confidence
    ensures confidence >= 0.0 ==> info.min <= confidence
    ensures confidence < 0.0 ==> info.level == "VERY_LOW"
  {
    var i := 0;
    while i < |Table|
      invariant 0 <= i <= |Table|
      invariant forall j :: 0 <= j < i ==> confidence < Table[j].config.min
      invariant i <= LevelOf(confidence).Rank() || confidence < 0.0
    {
      if confidence >= Table[i].config.min {
        return Describe(Table[i], confidence);
      }
      i := i + 1;
    }
    return Describe(Table[4], confidence);
  }

  /** A higher confidence never gets a lower level. */
  lemma LevelMonotone(c1: real, c2: real)
    requires c1 <= c2
    ensures LevelOf(c2).Rank() <= LevelOf(c1).Rank()
  {
  }

  /** The confidence reaches the chosen level's minimum and misses every
      higher level's, unless it is negative and falls back to `VERY_LOW`. */
  lemma LevelBracket(confidence: real)
    ensures var k := LevelOf(confidence).Rank();
            && (confidence >= 0.0 ==> Table[k].config.min <= confidence)
            && (forall j :: 0 <= j < k ==> confidence < Table[j].config.min)
  {
  }
}
