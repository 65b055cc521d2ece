/** The CORS origin list that create_app derives from the CORS_ORIGINS
    setting (backend/app/__init__.py). */
module Origins {
  import opened Text

  /** The setting's default when CORS_ORIGINS is not set. */
  const DefaultSetting: string := "*"

  /** The wildcard list used when the setting names no origin. */
  const AnyOrigin: seq<string> := ["*"]

  /** No string of xs contains c. */
  predicate Avoids(xs: seq<string>, c: char) {
    forall i :: 0 <= i < |xs| ==> c !in xs[i]
  }

  /** An origin as the list holds it: non-empty, no surrounding whitespace. */
  predicate Clean(o: string) {
    o != [] && Trimmed(o)
  }

  /** Each piece stripped, blank pieces dropped, order kept. */
  function NonBlank(pieces: seq<string>): seq<string> {
    if pieces == [] then []
    else if Strip(pieces[0]) == [] then NonBlank(pieces[1..])
    else [Strip(pieces[0])] + NonBlank(pieces[1..])
  }

  /** The origins allowed for the API routes: the comma-separated entries of the
      setting, trimmed, blanks dropped; the wildcard when none is left. */
  function ParseOrigins(setting: string): (r: seq<string>)
    ensures r != []
  {
    if NonBlank(Split(setting, ',')) == [] then AnyOrigin
    else NonBlank(Split(setting, ','))
  }

  /** Every origin in the list is non-empty, has no surrounding whitespace
      and contains no comma. */
  lemma OriginsAreClean(setting: string)
    ensures forall i :: 0 <= i < |ParseOrigins(setting)| ==> Clean(ParseOrigins(setting)[i])
    ensures Avoids(ParseOrigins(setting), ',')
  {
    if NonBlank(Split(setting, ',')) != [] {
      NamedOriginsAreClean(setting);
    } else {
      WildcardIsClean();
    }
  }

  lemma NamedOriginsAreClean(setting: string)
    requires NonBlank(Split(setting, ',')) != []
    ensures forall i :: 0 <= i < |ParseOrigins(setting)| ==> Clean(ParseOrigins(setting)[i])
    ensures Avoids(ParseOrigins(setting), ',')
  {
    NonBlankIsClean(Split(setting, ','));
    NonBlankAvoids(Split(setting, ','), ',');
  }

  lemma WildcardIsClean()
    ensures forall i :: 0 <= i < |AnyOrigin| ==> Clean(AnyOrigin[i])
    ensures Avoids(AnyOrigin, ',')
  {
  }

  /** Every entry that survives is a clean origin. */
  lemma {:induction false} NonBlankIsClean(pieces: seq<string>)
    ensures forall i :: 0 <= i < |NonBlank(pieces)| ==> Clean(NonBlank(pieces)[i])
  {
    if pieces != [] {
      NonBlankIsClean(pieces[1..]);
      var head := Strip(pieces[0]);
      if head != [] {
        assert NonBlank(pieces) == [head] + NonBlank(pieces[1..]);
      }
    }
  }

  /** Stripping and filtering introduce no new character. */
  lemma {:induction false} NonBlankAvoids(pieces: seq<string>, c: char)
    requires Avoids(pieces, c)
    ensures Avoids(NonBlank(pieces), c)
  {
    if pieces != [] {
      StripKeeps(pieces[0], c);
      NonBlankAvoids(pieces[1..], c);
      var head := Strip(pieces[0]);
      if head != [] {
        assert NonBlank(pieces) == [head] + NonBlank(pieces[1..]);
      }
    }
  }

  /** Every piece being blank is exactly when nothing survives the filter. */
  lemma {:induction false} NonBlankEmpty(pieces: seq<string>)
    ensures NonBlank(pieces) == [] <==> forall j :: 0 <= j < |pieces| ==> Strip(pieces[j]) == []
  {
    if pieces != [] {
      NonBlankEmpty(pieces[1..]);
      assert forall j :: 1 <= j < |pieces| ==> pieces[j] == pieces[1..][j - 1];
    }
  }

  /** A setting whose comma-separated entries are all blank (the empty
      string, spaces, ",,") falls back to the wildcard. */
  lemma BlankSettingIsWildcard(setting: string)
    requires forall j :: 0 <= j < |Split(setting, ',')| ==> Strip(Split(setting, ',')[j]) == []
    ensures ParseOrigins(setting) == AnyOrigin
  {
    NonBlankEmpty(Split(setting, ','));
  }

  /** The default setting yields the wildcard list. */
  lemma DefaultIsWildcard()
    ensures ParseOrigins(DefaultSetting) == AnyOrigin
  {
    SplitNoSep(DefaultSetting, ',');
    StripTrimmed("*");
  }

  lemma NonBlankCleanHead(pieces: seq<string>)
    requires pieces != [] && Clean(pieces[0])
    ensures NonBlank(pieces) == [pieces[0]] + NonBlank(pieces[1..])
  {
    StripTrimmed(pieces[0]);
  }

  /** Pieces that are already clean pass through unchanged. */
  lemma {:induction false} NonBlankClean(pieces: seq<string>)
    requires forall i :: 0 <= i < |pieces| ==> Clean(pieces[i])
    ensures NonBlank(pieces) == pieces
  {
    if pieces != [] {
      NonBlankCleanHead(pieces);
      NonBlankClean(pieces[1..]);
    }
  }

  /** Round trip: writing a non-empty list of clean origins as a
      comma-separated setting and parsing it gives the same list back, in
      the same order. */
  lemma ParseJoined(origins: seq<string>)
    requires origins != []
    requires forall i :: 0 <= i < |origins| ==> Clean(origins[i]) && ',' !in origins[i]
    ensures ParseOrigins(Join(origins, ",")) == origins
  {
    SplitJoin(origins, ',');
    NonBlankClean(origins);
  }
}
