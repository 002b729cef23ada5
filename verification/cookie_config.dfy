/**
 * The cookie records the pool works on. They are defined in the
 * configuration module of the system, which is not part of this model:
 * only the fields the pool reads or writes are represented, and the two
 * operations whose bodies live there (`CookieStatus::reset` and
 * `CookieStatus::reset_window_usage`) are kept abstract in StatusOps.
 */
module CookieConfig {
  import opened Wrappers

  /** The per-window usage counters; the default value is all zero. */
  datatype UsageBreakdown = UsageBreakdown(inputTokens: nat, outputTokens: nat)

  const ZeroUsage: UsageBreakdown := UsageBreakdown(0, 0)

  /** One usage window: whether the upstream reported that it resets, when, and what was used in it. */
  datatype Window = Window(hasReset: Option<bool>, resetsAt: Option<int>, usage: UsageBreakdown)

  /**
   * A cookie and its state. Two cookies are the same cookie when their
   * `cookie` strings agree: the pool compares and hashes by this key only.
   */
  datatype CookieStatus = CookieStatus(
    cookie: string,
    resetTime: Option<int>,
    session: Window,
    weekly: Window,
    weeklySonnet: Window,
    weeklyOpus: Window)

  /**
   * Why a cookie was returned to the pool. Other(name) stands for the
   * variants the pool treats alike (the catch-all arm of `collect`).
   */
  datatype Reason =
    | NormalPro
    | Free
    | Null
    | Restricted(until: int)
    | TooManyRequest(until: int)
    | Other(name: string)

  /** A discarded cookie with the reason it was discarded; equal when the cookie strings are. */
  datatype UselessCookie = UselessCookie(cookie: string, reason: Reason)

  /**
   * The two CookieStatus operations the pool calls but whose bodies are
   * not part of this model: `reset` (given the current time; it clears
   * `resetTime` once the cooldown is over) and `clearUsage`
   * (`reset_window_usage`).
   */
  datatype StatusOps = StatusOps(
    reset: (CookieStatus, int) -> CookieStatus,
    clearUsage: CookieStatus -> CookieStatus)
  {
    /** Neither operation changes which cookie it is; clearing usage keeps the cooldown. */
    ghost predicate Sound() {
      && (forall c, now :: reset(c, now).cookie == c.cookie)
      && (forall c :: clearUsage(c).cookie == c.cookie && clearUsage(c).resetTime == c.resetTime)
    }
  }
}
