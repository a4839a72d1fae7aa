/** The configuration check and the error text the command-line entry point
    relies on. */
module Utils {
  import opened Values

  /** The sections a configuration must have, in the order they are checked. */
  const RequiredSections: seq<string> := ["web_scraper", "api", "browser", "rpa", "social_bots"]

  // ---------------------------------------------------------------------------
  // format_error_message.

  /** `f"{type(error).__name__}: {str(error)}"`. */
  function FormatErrorMessage(e: Exception): (r: string)
    ensures |r| == |e.typeName| + 2 + |e.message|
    ensures r[..|e.typeName|] == e.typeName && r[|e.typeName| + 2..] == e.message
  {
    e.typeName + ": " + e.message
  }

  /** Splits a string at its first colon. */
  function SplitAtColon(s: string): (r: Option<(string, string)>)
    ensures r.Some? ==> |r.value.0| + 1 + |r.value.1| == |s|
  {
    if s == [] then None
    else if s[0] == ':' then Some(([], s[1..]))
    else
      match SplitAtColon(s[1..])
      case None => None
      case Some(parts) => Some(([s[0]] + parts.0, parts.1))
  }

  /** Reads a formatted error message back into the class name and the text. */
  function ParseErrorMessage(s: string): Option<Exception>
  {
    match SplitAtColon(s)
    case None => None
    case Some(parts) =>
      if |parts.1| >= 1 && parts.1[0] == ' ' then Some(Exception(parts.0, parts.1[1..])) else None
  }

  lemma {:induction false} SplitAtFirstColon(a: string, b: string)
    requires ':' !in a
    ensures SplitAtColon(a + ":" + b) == Some((a, b))
  {
    if a != [] {
      assert (a + ":" + b)[1..] == a[1..] + ":" + b;
      assert ':' !in a[1..] by {
        forall k | 0 <= k < |a[1..]| ensures a[1..][k] != ':' {
          assert a[1..][k] == a[k + 1];
        }
      }
      SplitAtFirstColon(a[1..], b);
      assert [a[0]] + a[1..] == a;
    } else {
      assert a + ":" + b == ":" + b;
    }
  }

  /** A class name holds no colon, so the message reads back as the exception
      it was formatted from, whatever its text. */
  lemma FormatErrorMessageRoundTrip(e: Exception)
    requires ':' !in e.typeName
    ensures ParseErrorMessage(FormatErrorMessage(e)) == Some(e)
  {
    assert FormatErrorMessage(e) == e.typeName + ":" + (" " + e.message);
    SplitAtFirstColon(e.typeName, " " + e.message);
    assert (" " + e.message)[1..] == e.message;
  }

  /** Messages of different exceptions differ. */
  lemma FormatErrorMessageInjective(e: Exception, f: Exception)
    requires ':' !in e.typeName && ':' !in f.typeName
    requires FormatErrorMessage(e) == FormatErrorMessage(f)
    ensures e == f
  {
    FormatErrorMessageRoundTrip(e);
    FormatErrorMessageRoundTrip(f);
  }

  // ---------------------------------------------------------------------------
  // validate_config.

  /** `key in container`: a key of a dict, an item of a list, a substring of a
      string; other values are not containers. */
  function Member(key: string, container: Value): (r: Result<bool, Exception>)
    ensures container.Dict? ==> r == Ok(key in Keys(container.entries))
    ensures r.Err? <==> !(container.Dict? || container.List? || container.Str?)
  {
    match container
    case Dict(entries) => Ok(key in Keys(entries))
    case List(items) => Ok(Str(key) in items)
    case Str(s) => Ok(Contains(s, key))
    case _ => Err(Exception("TypeError", "argument of type '" + TypeName(container) + "' is not iterable"))
  }

  /** The verdict of checking `sections` in order: false at the first one
      missing. */
  function Checked(config: Value, sections: seq<string>): Result<bool, Exception>
  {
    if sections == [] then Ok(true)
    else
      match Member(sections[0], config)
      case Err(e) => Err(e)
      case Ok(found) => if !found then Ok(false) else Checked(config, sections[1..])
  }

  /** validate_config. */
  method ValidateConfig(config: Value) returns (r: Result<bool, Exception>)
    ensures r == Checked(config, RequiredSections)
  {
    var i := 0;
    while i < |RequiredSections|
      invariant 0 <= i <= |RequiredSections|
      invariant Checked(config, RequiredSections) == Checked(config, RequiredSections[i..])
    {
      assert RequiredSections[i..][1..] == RequiredSections[i + 1..];
      var found := Member(RequiredSections[i], config);
      if found.Err? {
        return Err(found.error);
      }
      if !found.value {
        return Ok(false);
      }
      i := i + 1;
    }
    return Ok(true);
  }

  /** For a dict, the check accepts exactly when every section is a key. */
  lemma {:induction false} CheckedDict(entries: Entries, sections: seq<string>)
    ensures Checked(Dict(entries), sections) == Ok(forall s :: s in sections ==> s in Keys(entries))
  {
    if sections != [] {
      CheckedDict(entries, sections[1..]);
      assert sections == [sections[0]] + sections[1..];
      if sections[0] in Keys(entries) {
        assert Checked(Dict(entries), sections) == Checked(Dict(entries), sections[1..]);
        assert (forall s :: s in sections ==> s in Keys(entries)) <==> (forall s :: s in sections[1..] ==> s in Keys(entries));
      } else {
        assert Checked(Dict(entries), sections) == Ok(false);
      }
    }
  }

  /** A configuration missing one section is rejected. */
  lemma MissingSectionRejected(entries: Entries, section: string)
    requires section in RequiredSections && section !in Keys(entries)
    ensures Checked(Dict(entries), RequiredSections) == Ok(false)
  {
    CheckedDict(entries, RequiredSections);
  }

  /** Sections beyond the required ones do not change the verdict. */
  lemma ExtraSectionsIgnored(entries: Entries, extra: Entries)
    requires Checked(Dict(entries), RequiredSections) == Ok(true)
    ensures Checked(Dict(entries + extra), RequiredSections) == Ok(true)
  {
    CheckedDict(entries, RequiredSections);
    CheckedDict(entries + extra, RequiredSections);
    KeysAppend(entries, extra);
  }

  /** A configuration that is not a dict, list or string is refused with the
      TypeError `in` raises on the first section. */
  lemma NotContainerRaises(config: Value)
    requires !(config.Dict? || config.List? || config.Str?)
    ensures Checked(config, RequiredSections) ==
      Err(Exception("TypeError", "argument of type '" + TypeName(config) + "' is not iterable"))
  {
  }
}
