/** Vocabulary shared by every part of the bot. */
module Common {

  datatype Option<T> = None | Some(value: T)

  /**
   * A Discord id. Snowflakes are never zero, so Python's truthiness test on an
   * id fetched from the database (`if owner := ...`) is a presence test.
   */
  type Snowflake = n: nat | 0 < n witness 1

  /** The star emoji the starboard counts (stars.py:42). */
  const STAR: string := "\U{2B50}"
}
