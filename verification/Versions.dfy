/** config/version.go: a version is the raw text it was written with plus the instant it names. */
module Versions {
  import opened Wrappers

  /** `t` counts nanoseconds since the zero time.Time, so an unset version has `t == 0`. */
  datatype Version = Version(raw: string, t: int) {
    predicate IsZero() { raw == "" }
    predicate Equal(other: Version) { raw == other.raw }
    predicate After(other: Version) { t > other.t }
  }

  const UNSET := Version("", 0)

  /** The RFC 3339 (section 5.6) renderer and reader of Go's time package, as parameters. */
  datatype TimeFormat = TimeFormat(format: int -> string, parse: string -> Option<int>)

  /** Rendering is undone by reading, and the empty text is no timestamp. */
  ghost predicate Canonical(f: TimeFormat) {
    && f.parse("") == None
    && forall t :: f.parse(f.format(t)) == Some(t)
  }

  function NewVersion(f: TimeFormat, t: int): Version {
    Version(f.format(t), t)
  }

  function ParseVersion(f: TimeFormat, raw: string): Option<Version> {
    match f.parse(raw)
    case None => None
    case Some(t) => Some(Version(raw, t))
  }

  /** A version minted from an instant survives the trip through its raw text, is never
      unset, and is Equal to another minted version exactly when neither is After the other. */
  lemma MintedVersionRoundTrip(f: TimeFormat, t: int, u: int)
    requires Canonical(f)
    ensures ParseVersion(f, NewVersion(f, t).raw) == Some(NewVersion(f, t))
    ensures f.parse(NewVersion(f, t).raw) == Some(t) && !NewVersion(f, t).IsZero() && UNSET.IsZero()
    ensures NewVersion(f, t).After(NewVersion(f, u)) <==> t > u
    ensures NewVersion(f, t).Equal(NewVersion(f, u)) <==>
            !NewVersion(f, t).After(NewVersion(f, u)) && !NewVersion(f, u).After(NewVersion(f, t))
  {
    assert f.parse(f.format(t)) == Some(t) && f.parse(f.format(u)) == Some(u);
  }

  /** Parsed versions do not have that property: two spellings of one instant are neither
      Equal nor After one another, while reading keeps the text it was given. */
  lemma SpellingsOfOneInstant(f: TimeFormat, a: string, b: string)
    requires f.parse(a).Some? && f.parse(a) == f.parse(b)
    ensures var v, w := ParseVersion(f, a), ParseVersion(f, b);
            v.Some? && w.Some? && v.value.raw == a && !v.value.After(w.value) && !w.value.After(v.value)
            && (v.value.Equal(w.value) <==> a == b)
  {
  }
}
