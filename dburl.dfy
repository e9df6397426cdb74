/** The DATABASE_URL normaliser, modelled on `_normalize_database_url` in
    src/db.py: a Heroku-style `postgres://` URL is renamed to
    `postgresql://`, and a `postgresql://` URL without a driver is pinned to
    the psycopg 3 driver. */
module DbUrl {
  import opened Common

  const Heroku: string := "postgres://"
  const Plain: string := "postgresql://"
  const WithDriver: string := "postgresql+"
  const Psycopg: string := "postgresql+psycopg://"

  /** `_normalize_database_url`: a URL is either kept as it is or ends up
      naming a driver. */
  function NormalizeDatabaseUrl(url: string): (r: string)
    ensures r == url || WithDriver <= r
  {
    var u := if Heroku <= url then ReplaceFirst(url, Heroku, Plain) else url;
    if WithDriver <= u then u
    else if Plain <= u then ReplaceFirst(u, Plain, Psycopg)
    else u
  }

  /** The outcome for each kind of URL: the scheme is rewritten to the
      psycopg driver for `postgres://` and `postgresql://`, the rest kept
      as is; a URL naming a driver, and any other URL, is unchanged. */
  lemma NormalizeCases(url: string)
    ensures Heroku <= url ==> NormalizeDatabaseUrl(url) == Psycopg + url[|Heroku|..]
    ensures Plain <= url ==> NormalizeDatabaseUrl(url) == Psycopg + url[|Plain|..]
    ensures WithDriver <= url ==> NormalizeDatabaseUrl(url) == url
    ensures !(Heroku <= url) && !(Plain <= url) ==> NormalizeDatabaseUrl(url) == url
  {
    if Heroku <= url {
      var u := Plain + url[|Heroku|..];
      assert u[..|Plain|] == Plain;
      assert !(WithDriver <= u) by { assert u[10] == ':' && WithDriver[10] == '+'; }
      assert u[|Plain|..] == url[|Heroku|..];
    } else if Plain <= url {
      assert !(WithDriver <= url) by { assert url[10] == ':' && WithDriver[10] == '+'; }
    }
  }

  /** Every URL the normaliser rewrites starts with `postgresql+`, so a
      second pass changes nothing. */
  lemma NormalizeIdempotent(url: string)
    ensures NormalizeDatabaseUrl(NormalizeDatabaseUrl(url)) == NormalizeDatabaseUrl(url)
  {
    NormalizeCases(url);
    var n := NormalizeDatabaseUrl(url);
    if Heroku <= url || Plain <= url {
      assert n[..|WithDriver|] == WithDriver;
      assert WithDriver <= n;
      assert !(Heroku <= n) by { assert n[8] == 'q' && Heroku[8] == ':'; }
    }
    NormalizeCases(n);
  }
}
