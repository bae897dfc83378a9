/**
 * The schema validators of the Impact connector resource: `ConnectorID` for
 * the `name` argument and `ConnectorType` for `connector_type`. Each receives
 * the dynamically typed value and the attribute key, and returns a list of
 * warnings and a list of errors.
 */
module ConnectorValidators {

  /** The `interface{}` a validator receives: a string, or a value of any other type. */
  datatype Value = Str(s: string) | NonString

  datatype ValidationError =
    | ExpectedString(key: string)                         // "expected type of %s to be string"
    | InvalidConnectorId(key: string)                     // "%q must be between 3 and 24 alphanumeric characters"
    | NotAllowedValue(key: string, possibleValues: seq<string>)  // "%q invalid value, must be one of: %+v"

  /** The pair `(warnings []string, errors []error)` a validator returns. */
  datatype Diagnostics = Diagnostics(warnings: seq<string>, errors: seq<ValidationError>)

  // ---------------------------------------------------------------------------
  // The regular expression ^[a-zA-Z0-9-]{3,24}$, as a small matcher.

  /** One range `lo-hi` of a bracketed character class; a single character c is `c-c`. */
  datatype CharRange = CharRange(lo: char, hi: char)

  /** The class `[a-zA-Z0-9-]`. */
  const ConnectorIdClass: seq<CharRange> :=
    [CharRange('a', 'z'), CharRange('A', 'Z'), CharRange('0', '9'), CharRange('-', '-')]

  /** The bounds of the repetition `{3,24}`. */
  const ConnectorIdMinLength: nat := 3
  const ConnectorIdMaxLength: nat := 24

  /** Does c fall in one of the ranges of the class? */
  predicate InClass(c: char, cls: seq<CharRange>)
  {
    |cls| > 0 && (cls[0].lo <= c <= cls[0].hi || InClass(c, cls[1..]))
  }

  /**
   * Does the whole of s match `^cls{min,max}$`? The matcher consumes one
   * character per step, counting down both bounds, as a backtracking-free
   * engine does for a single repeated class.
   */
  predicate MatchesRepeat(s: string, cls: seq<CharRange>, min: nat, max: nat)
    decreases |s|
  {
    if |s| == 0 then min == 0
    else max > 0 && InClass(s[0], cls)
         && MatchesRepeat(s[1..], cls, if min > 0 then min - 1 else 0, max - 1)
  }

  predicate MatchesConnectorIdPattern(s: string)
  {
    MatchesRepeat(s, ConnectorIdClass, ConnectorIdMinLength, ConnectorIdMaxLength)
  }

  // ---------------------------------------------------------------------------
  // The reference reading of the pattern: a length bound and an ASCII charset.

  /** An ASCII letter, an ASCII digit or a hyphen. */
  predicate IsConnectorIdChar(c: char)
  {
    ('a' <= c <= 'z') || ('A' <= c <= 'Z') || ('0' <= c <= '9') || c == '-'
  }

  predicate IsValidConnectorId(s: string)
  {
    3 <= |s| <= 24 && forall i :: 0 <= i < |s| ==> IsConnectorIdChar(s[i])
  }

  /** The four ranges of the class accept exactly the letters, digits and hyphen. */
  lemma ConnectorIdClassIsCharset(c: char)
    ensures InClass(c, ConnectorIdClass) <==> IsConnectorIdChar(c)
  {
    var digitsOrHyphen := [CharRange('0', '9'), CharRange('-', '-')];
    assert digitsOrHyphen[1..][1..] == [];
    assert InClass(c, digitsOrHyphen[1..]) <==> c == '-';
    assert InClass(c, digitsOrHyphen) <==> '0' <= c <= '9' || c == '-';
    assert ConnectorIdClass[1..][1..] == digitsOrHyphen;
    assert InClass(c, ConnectorIdClass[1..]) <==> 'A' <= c <= 'Z' || '0' <= c <= '9' || c == '-';
  }

  /** A bounded repetition of one class matches exactly the strings of length min..max over the class. */
  lemma {:induction false} MatchesRepeatIsBoundedLength(s: string, cls: seq<CharRange>, min: nat, max: nat)
    ensures MatchesRepeat(s, cls, min, max)
            <==> min <= |s| <= max && forall i :: 0 <= i < |s| ==> InClass(s[i], cls)
  {
    if |s| > 0 {
      if max > 0 {
        MatchesRepeatIsBoundedLength(s[1..], cls, if min > 0 then min - 1 else 0, max - 1);
        assert forall i :: 1 <= i < |s| ==> s[i] == s[1..][i - 1];
      }
    }
  }

  /** The regular expression and the reference reading agree on every string. */
  lemma ConnectorIdPatternIsCharsetAndLength(s: string)
    ensures MatchesConnectorIdPattern(s) <==> IsValidConnectorId(s)
  {
    MatchesRepeatIsBoundedLength(s, ConnectorIdClass, ConnectorIdMinLength, ConnectorIdMaxLength);
    forall i | 0 <= i < |s| ensures InClass(s[i], ConnectorIdClass) <==> IsConnectorIdChar(s[i]) {
      ConnectorIdClassIsCharset(s[i]);
    }
  }

  // ---------------------------------------------------------------------------
  // The validators.

  /**
   * Validates a connector name. A non-string yields the type error alone;
   * a string yields no error exactly when it is 3 to 24 ASCII letters,
   * digits or hyphens. No warnings are ever produced.
   */
  function ConnectorID(i: Value, k: string): (r: Diagnostics)
    ensures r.warnings == [] && |r.errors| <= 1
    ensures i.NonString? ==> r.errors == [ExpectedString(k)]
    ensures i.Str? ==> (r.errors == [] <==> IsValidConnectorId(i.s))
    ensures i.Str? && r.errors != [] ==> r.errors == [InvalidConnectorId(k)]
  {
    match i
    case NonString => Diagnostics([], [ExpectedString(k)])
    case Str(v) =>
      ConnectorIdPatternIsCharsetAndLength(v);
      if !MatchesConnectorIdPattern(v) then Diagnostics([], [InvalidConnectorId(k)])
      else Diagnostics([], [])
  }

  /** Go's `slices.Contains`: a scan from the front for an equal element. */
  predicate Contains(xs: seq<string>, v: string)
  {
    |xs| > 0 && (xs[0] == v || Contains(xs[1..], v))
  }

  lemma {:induction false} ContainsIsMembership(xs: seq<string>, v: string)
    ensures Contains(xs, v) <==> v in xs
  {
    if |xs| > 0 {
      ContainsIsMembership(xs[1..], v);
      assert xs == [xs[0]] + xs[1..];
    }
  }

  /**
   * Validates a connector type against the platform values the API accepts
   * (`PossibleValuesForPlatform`, passed in). A non-string yields the type
   * error alone; a string yields no error exactly when it is one of the values.
   */
  function ConnectorType(i: Value, k: string, possibleValues: seq<string>): (r: Diagnostics)
    ensures r.warnings == [] && |r.errors| <= 1
    ensures i.NonString? ==> r.errors == [ExpectedString(k)]
    ensures i.Str? ==> (r.errors == [] <==> i.s in possibleValues)
    ensures i.Str? && r.errors != [] ==> r.errors == [NotAllowedValue(k, possibleValues)]
  {
    match i
    case NonString => Diagnostics([], [ExpectedString(k)])
    case Str(v) =>
      ContainsIsMembership(possibleValues, v);
      if !Contains(possibleValues, v) then Diagnostics([], [NotAllowedValue(k, possibleValues)])
      else Diagnostics([], [])
  }

  // ---------------------------------------------------------------------------
  // The unit-test vectors.

  lemma ConnectorIdTestVectors(k: string)
    ensures ConnectorID(Str(""), k).errors != []
    ensures ConnectorID(Str("oo"), k).errors != []
    ensures ConnectorID(Str("acctest123-east"), k).errors == []
    ensures ConnectorID(Str("an-identifier-which-is-too-long"), k).errors != []
    ensures ConnectorID(Str("inv4l!dch@r4ct3rs"), k).errors != []
  {
    var bad := "inv4l!dch@r4ct3rs";
    assert !IsConnectorIdChar(bad[5]);
    assert |"an-identifier-which-is-too-long"| == 31;
    var good := "acctest123-east";
    assert forall i :: 0 <= i < |good| ==> IsConnectorIdChar(good[i]);
  }

  lemma ConnectorTypeTestVectors(k: string, possibleValues: seq<string>)
    requires "AzureMonitor" in possibleValues
    requires "" !in possibleValues && "InvalidType" !in possibleValues
    ensures ConnectorType(Str("AzureMonitor"), k, possibleValues).errors == []
    ensures ConnectorType(Str(""), k, possibleValues).errors != []
    ensures ConnectorType(Str("InvalidType"), k, possibleValues).errors != []
  {
  }
}
