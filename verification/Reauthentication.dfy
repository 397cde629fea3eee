/** The re-authentication window of a session (domain/reauthentication.go). */
module Reauthentication {
  import opened Options
  import opened Clock

  const WINDOW := 10 * MINUTE

  // A null proof time is the zero time of the Go struct.
  datatype Window = Window(provenAt: Option<Time>, idleExpiresAt: Time, absoluteExpiresAt: Time)

  /** The end of the window; the zero time, None, when the session has no proof. */
  function ExpiresAt(w: Window): Option<Time> {
    if w.provenAt.None? then None
    else
      var end := w.provenAt.value + WINDOW;
      var end := if w.idleExpiresAt < end then w.idleExpiresAt else end;
      Some(if w.absoluteExpiresAt < end then w.absoluteExpiresAt else end)
  }

  predicate IsOpen(w: Window, now: Time) {
    w.provenAt.Some? && w.provenAt.value <= now && now < ExpiresAt(w).value
  }

  function SessionDeadline(w: Window): Time {
    if w.idleExpiresAt < w.absoluteExpiresAt then w.idleExpiresAt else w.absoluteExpiresAt
  }

  // COMMIT runs the deferred triggers in this order: the deadline check, the proof stamp when the
  // transaction requested one, and the deadline check that the stamp's own UPDATE queues.
  datatype CommitClock = CommitClock(checkedAt: Time, stampedAt: Time, recheckedAt: Time)

  predicate Ticks(c: CommitClock) {
    c.checkedAt <= c.stampedAt <= c.recheckedAt
  }

  predicate CommitsBefore(c: CommitClock, deadline: Time, stamps: bool) {
    c.checkedAt < deadline && (stamps ==> c.recheckedAt < deadline)
  }
}
