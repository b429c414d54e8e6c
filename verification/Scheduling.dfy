/** Limits of the scheduler that several models share (internal/application/scheduling.go). */
module Scheduling {
  const MAX_HEAVY_CAPACITY: int := 32
}
