/** The connection-string normalisation done when the database module is
    loaded: hosting providers hand out `postgres://` URLs, which the
    database driver only accepts under the scheme name `postgresql://`. */
module Database {
  import opened Strings

  const LegacyScheme := "postgres://"
  const DriverScheme := "postgresql://"

  /** The rewrite applied to `DATABASE_URL`: if it starts with the legacy
      scheme, the first occurrence of that scheme is replaced by the driver's
      scheme; any other path is kept as it is. */
  function NormalizeDatabaseUrl(path: string): (r: string)
    ensures StartsWith(path, LegacyScheme) ==> r == DriverScheme + path[|LegacyScheme|..]
    ensures !StartsWith(path, LegacyScheme) ==> r == path
    ensures !StartsWith(r, LegacyScheme)
  {
    if StartsWith(path, LegacyScheme) then
      assert OccursAt(path, LegacyScheme, 0);
      var r := ReplaceFirst(path, LegacyScheme, DriverScheme);
      assert (DriverScheme + path[|LegacyScheme|..])[8] == 'q';
      r
    else path
  }

  /** A URL already in the driver's form is left alone. */
  lemma AlreadyNormalized(path: string)
    requires StartsWith(path, DriverScheme)
    ensures NormalizeDatabaseUrl(path) == path
  {
    assert path[8] == 'q';
  }

  /** Normalising twice is the same as normalising once. */
  lemma NormalizeIdempotent(path: string)
    ensures NormalizeDatabaseUrl(NormalizeDatabaseUrl(path)) == NormalizeDatabaseUrl(path)
  {
  }

  /** When the rewrite fires the URL grows by exactly the two characters
      "ql", and the text after the scheme is unchanged. */
  lemma RewriteLength(path: string)
    requires StartsWith(path, LegacyScheme)
    ensures |NormalizeDatabaseUrl(path)| == |path| + 2
    ensures NormalizeDatabaseUrl(path)[|DriverScheme|..] == path[|LegacyScheme|..]
  {
  }
}
