/** The Monolog severity levels a log record carries, and the numeric scale the
    handler forwards them on. */
module Levels {

  /** Monolog's eight severities, from least to most severe. */
  datatype Level = Debug | Info | Notice | Warning | Error | Critical | Alert | Emergency {

    /** The numeric value of the level; Wonolog's own log-level constants use the same scale. */
    function Value(): int {
      match this
      case Debug => 100
      case Info => 200
      case Notice => 250
      case Warning => 300
      case Error => 400
      case Critical => 500
      case Alert => 550
      case Emergency => 600
    }

    /** True when a record at this level passes a handler whose threshold is `threshold`. */
    predicate AtLeast(threshold: Level) {
      Value() >= threshold.Value()
    }
  }

  /** All levels in increasing severity. */
  const AllLevels: seq<Level> := [Debug, Info, Notice, Warning, Error, Critical, Alert, Emergency]

  /** The numeric scale is strictly increasing along the severity order, so forwarding
      the number loses nothing: distinct levels are forwarded as distinct numbers, and
      the threshold comparison on numbers is the severity order. */
  lemma ScaleIsStrictlyIncreasing(i: int, j: int)
    requires 0 <= i < j < |AllLevels|
    ensures AllLevels[i].Value() < AllLevels[j].Value()
    ensures !AllLevels[i].AtLeast(AllLevels[j])
  {
  }
}
