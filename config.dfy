/** The application settings: their defaults and the validator that turns a
    comma-separated CORS origin list into a list of origins. Reading the
    environment and the `.env` file is not part of this model: the values arrive
    as parameters. */
module Config {
  import opened Wrappers
  import opened Text

  /** A raw `cors_origins` value: a string from the environment, or a list. */
  datatype CorsValue = CorsText(text: string) | CorsList(origins: seq<string>)

  const DefaultJwtAlgorithm: string := "HS256"
  const DefaultCorsOrigins: seq<string> := ["*"]

  datatype Settings = Settings(
    databaseUrl: string,
    jwtSecretKey: string,
    jwtAlgorithm: string,
    corsOrigins: seq<string>)

  /** The `split_cors_origins` validator: a string is split on commas and every
      piece stripped with Python's notion of whitespace; any other value passes through unchanged. */
  function SplitCorsOrigins(v: CorsValue): (r: CorsValue)
    ensures v.CorsList? ==> r == v
    ensures v.CorsText? ==> r.CorsList? && |r.origins| == Count(v.text, ',') + 1
    ensures v.CorsText? ==> forall i :: 0 <= i < |r.origins| ==>
              NoSurroundingSpace(r.origins[i], Python) && ',' !in r.origins[i]
    ensures v.CorsText? ==> |r.origins| == |Split(v.text, ',')|
    ensures v.CorsText? ==> forall i :: 0 <= i < |r.origins| ==>
              r.origins[i] == Strip(Split(v.text, ',')[i], Python)
  {
    match v
    case CorsList(_) => v
    case CorsText(s) =>
      var pieces := Split(s, ',');
      SplitCount(s, ',');
      SplitPiecesHaveNoSeparator(s, ',');
      var origins := seq(|pieces|, i requires 0 <= i < |pieces| => Strip(pieces[i], Python));
      assert forall i :: 0 <= i < |origins| ==> ',' !in origins[i] by {
        forall i | 0 <= i < |origins| ensures ',' !in origins[i] {
          var j :| MiddleAt(pieces[i], origins[i], j, Python);
          assert origins[i] == pieces[i][j..j + |origins[i]|];
        }
      }
      CorsList(origins)
  }

  /** Joining the stripped origins with commas gives back the text when no piece
      of it carries whitespace around it. */
  lemma SplitCorsOriginsRoundTrip(s: string)
    requires forall i :: 0 <= i < |Split(s, ',')| ==> NoSurroundingSpace(Split(s, ',')[i], Python)
    ensures Join(SplitCorsOrigins(CorsText(s)).origins, ',') == s
  {
    var pieces := Split(s, ',');
    var origins := SplitCorsOrigins(CorsText(s)).origins;
    forall i | 0 <= i < |pieces| ensures origins[i] == pieces[i] {
      StripOfStripped(pieces[i]);
    }
    assert origins == pieces;
    JoinSplit(s, ',');
  }

  /** A string with no whitespace at its ends is its own strip. */
  lemma StripOfStripped(s: string)
    requires NoSurroundingSpace(s, Python)
    ensures Strip(s, Python) == s
  {
    if s != [] {
      assert TrimStart(s, Python) == s;
      assert TrimEnd(s, Python) == s;
    }
  }

  /** `Settings()`: a missing `jwt_algorithm` or `cors_origins` takes its default
      (a default is not passed through the validator); a given `cors_origins`
      goes through `split_cors_origins`. */
  function MakeSettings(databaseUrl: string, jwtSecretKey: string,
                        jwtAlgorithm: Option<string>, corsOrigins: Option<CorsValue>): (r: Settings)
    ensures r.databaseUrl == databaseUrl && r.jwtSecretKey == jwtSecretKey
    ensures jwtAlgorithm.None? ==> r.jwtAlgorithm == "HS256"
    ensures jwtAlgorithm.Some? ==> r.jwtAlgorithm == jwtAlgorithm.value
    ensures corsOrigins.None? ==> r.corsOrigins == ["*"]
    ensures corsOrigins.Some? ==> r.corsOrigins == SplitCorsOrigins(corsOrigins.value).origins
  {
    Settings(
      databaseUrl,
      jwtSecretKey,
      jwtAlgorithm.GetOr(DefaultJwtAlgorithm),
      if corsOrigins.None? then DefaultCorsOrigins else SplitCorsOrigins(corsOrigins.value).origins)
  }
}
