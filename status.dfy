/** The summary classifier `AppComponent.getDistanceStatus`: an optional
    distance becomes one of four levels, each with a fixed set of display
    classes. */
module Status {
  import opened Measurements

  datatype Level = Unknown | Safe | Warning | Alert

  /** The record the classifier returns: the label, the three CSS class
      strings, and the level. */
  datatype DistanceStatus = DistanceStatus(
    text: string,
    cardClass: string,
    textColorClass: string,
    pillClass: string,
    level: Level)

  /** Distances strictly above this are an alert. */
  const AlertAbove: real := 25.0
  /** Distances at or above this (and not above AlertAbove) are a warning. */
  const WarningFrom: real := 16.0

  /** The fixed display attributes of each level. */
  function Display(level: Level): (s: DistanceStatus)
    ensures s.level == level
  {
    match level
    case Unknown => DistanceStatus("Unknown", "bg-gray-800", "text-gray-400", "bg-gray-700", Unknown)
    case Alert => DistanceStatus("Alert", "bg-red-600", "text-red-100", "bg-red-900/50", Alert)
    case Warning => DistanceStatus("Warning", "bg-yellow-500", "text-yellow-100", "bg-yellow-900/50", Warning)
    case Safe => DistanceStatus("Safe", "bg-green-600", "text-green-100", "bg-green-900/50", Safe)
  }

  /** The if-chain of `getDistanceStatus`. */
  function GetDistanceStatus(distance: Option<real>): (s: DistanceStatus)
    ensures s == Display(s.level)
    ensures s.level == Unknown <==> distance.None?
    ensures distance.Some? ==> (s.level == Alert <==> distance.value > 25.0)
    ensures distance.Some? ==> (s.level == Warning <==> 16.0 <= distance.value <= 25.0)
    ensures distance.Some? ==> (s.level == Safe <==> distance.value < 16.0)
  {
    if distance.None? then Display(Unknown)
    else if distance.value > AlertAbove then Display(Alert)
    else if distance.value >= WarningFrom then Display(Warning)
    else Display(Safe)
  }

  /** Severity order of the three levels a present distance can get. */
  function Rank(level: Level): int
  {
    match level
    case Unknown => -1
    case Safe => 0
    case Warning => 1
    case Alert => 2
  }

  /** A larger distance never gets a less severe level. */
  lemma ClassificationMonotone(a: real, b: real)
    requires a <= b
    ensures 0 <= Rank(GetDistanceStatus(Some(a)).level) <= Rank(GetDistanceStatus(Some(b)).level)
  {
  }

  /** The labels at the documented boundary values. */
  lemma ClassifierBoundaries()
    ensures GetDistanceStatus(None).text == "Unknown"
    ensures GetDistanceStatus(Some(16.0)).level == Warning
    ensures GetDistanceStatus(Some(15.999)).level == Safe
    ensures GetDistanceStatus(Some(25.0)).level == Warning
    ensures GetDistanceStatus(Some(25.001)).level == Alert
    ensures GetDistanceStatus(Some(0.0)).level == Safe
  {
  }
}
