module TimeUnits {
  const HOUR_MS := 3_600_000
}
