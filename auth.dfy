/**
 * The password manager of password/auth.py, seen from its callers.
 * Strength scoring (zxcvbn), peppered hashing (HMAC-SHA256 then Argon2id) and
 * verification are foreign code; they are uninterpreted functions here, bundled
 * in a PasswordManager value that the handlers receive.
 */
module Auth {
  /** The random salt Argon2id draws on every call, made an explicit input. */
  type Salt = seq<bv8>

  /** zxcvbn's score ranges from 0 (too weak) to 4 (very strong). */
  type Score = x: int | 0 <= x <= 4

  /** What `validate_strength` reports, minus `is_strong`, which IsStrong derives. */
  datatype StrengthReport = StrengthReport(score: Score, warning: string, suggestions: seq<string>)

  /** `is_strong` is a score of at least 3. */
  predicate IsStrong(report: StrengthReport) {
    report.score >= 3
  }

  /**
   * evaluate(password, usernameHint) is `validate_strength`;
   * hash(password, salt) is `hash_password` with its salt made explicit;
   * verify(password, encodedHash) is `verify_password`, which turns every
   * mismatch and internal error into `false`, so it is total.
   */
  datatype PasswordManager = PasswordManager(
    evaluate: (string, string) -> StrengthReport,
    hash: (string, Salt) -> string,
    verify: (string, string) -> bool)

  /** The hasher's own promise: a password verifies against any hash derived from it. */
  ghost predicate HashVerifies(pm: PasswordManager) {
    forall password: string, salt: Salt :: pm.verify(password, pm.hash(password, salt))
  }
}
