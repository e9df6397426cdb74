/** The one piece of arithmetic in the public feed handler of app.py: the
    `limit` query parameter is clamped into 1..10000 before the query. */
module Feed {

  const DefaultLimit: int := 2000
  const MaxLimit: int := 10000

  /** `max(1, min(limit, 10000))`. */
  function ClampLimit(limit: int): (r: int)
    ensures 1 <= r <= MaxLimit
    ensures 1 <= limit <= MaxLimit ==> r == limit
    ensures limit < 1 ==> r == 1
    ensures limit > MaxLimit ==> r == MaxLimit
  {
    var m := if limit < MaxLimit then limit else MaxLimit;
    if 1 < m then m else 1
  }

  /** Clamping twice is clamping once, and the default is kept. */
  lemma ClampIdempotent(limit: int)
    ensures ClampLimit(ClampLimit(limit)) == ClampLimit(limit)
    ensures ClampLimit(DefaultLimit) == DefaultLimit
  {
  }
}
