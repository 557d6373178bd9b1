/** Semantic versions, and the admission webhook that guards every edit of an upgrade plan. */
module Webhook {
  import opened Prelude
  import opened Api

  // ---- semantic versions ----

  datatype Identifier = Numeric(n: nat) | Alphanumeric(text: string)

  datatype Semver = Semver(major: nat, minor: nat, patch: nat, preRelease: seq<Identifier>)

  /** The version parser is library code; any function from text to an optional version stands for it. */
  type Parser = string -> Option<Semver>

  predicate TextBelow(a: string, b: string) {
    b != [] && (a == [] || a[0] < b[0] || (a[0] == b[0] && TextBelow(a[1..], b[1..])))
  }

  /** Numeric identifiers compare as numbers and lie below alphanumeric ones, which compare as ASCII text. */
  predicate IdentifierBelow(a: Identifier, b: Identifier) {
    match (a, b)
    case (Numeric(m), Numeric(n)) => m < n
    case (Numeric(_), Alphanumeric(_)) => true
    case (Alphanumeric(_), Numeric(_)) => false
    case (Alphanumeric(s), Alphanumeric(t)) => TextBelow(s, t)
  }

  /** Field by field from the left; of two lists that agree, the shorter is below. */
  predicate FieldsBelow(a: seq<Identifier>, b: seq<Identifier>) {
    b != [] && (a == [] || IdentifierBelow(a[0], b[0]) || (a[0] == b[0] && FieldsBelow(a[1..], b[1..])))
  }

  /** A pre-release lies below the release it precedes. */
  predicate PreReleaseBelow(a: seq<Identifier>, b: seq<Identifier>) {
    if a == [] then false else if b == [] then true else FieldsBelow(a, b)
  }

  /** Precedence, section 11 of Semantic Versioning 2.0.0. */
  predicate Below(a: Semver, b: Semver) {
    if a.major != b.major then a.major < b.major
    else if a.minor != b.minor then a.minor < b.minor
    else if a.patch != b.patch then a.patch < b.patch
    else PreReleaseBelow(a.preRelease, b.preRelease)
  }

  lemma {:induction false} TextOrder(a: string, b: string, c: string)
    ensures !TextBelow(a, a)
    ensures TextBelow(a, b) && TextBelow(b, c) ==> TextBelow(a, c)
    ensures a == b || TextBelow(a, b) || TextBelow(b, a)
  {
    if a != [] {
      TextOrder(a[1..], if b == [] then [] else b[1..], if c == [] then [] else c[1..]);
      if b != [] && a[0] == b[0] && a[1..] == b[1..] { assert a == [a[0]] + a[1..] && b == [b[0]] + b[1..]; }
    }
  }

  lemma IdentifierOrder(a: Identifier, b: Identifier, c: Identifier)
    ensures !IdentifierBelow(a, a)
    ensures IdentifierBelow(a, b) && IdentifierBelow(b, c) ==> IdentifierBelow(a, c)
    ensures a == b || IdentifierBelow(a, b) || IdentifierBelow(b, a)
  {
    if a.Alphanumeric? {
      TextOrder(a.text, if b.Alphanumeric? then b.text else "", if c.Alphanumeric? then c.text else "");
    }
  }

  lemma {:induction false} FieldsOrder(a: seq<Identifier>, b: seq<Identifier>, c: seq<Identifier>)
    ensures !FieldsBelow(a, a)
    ensures FieldsBelow(a, b) && FieldsBelow(b, c) ==> FieldsBelow(a, c)
    ensures a == b || FieldsBelow(a, b) || FieldsBelow(b, a)
  {
    if a != [] {
      FieldsOrder(a[1..], if b == [] then [] else b[1..], if c == [] then [] else c[1..]);
      IdentifierOrder(a[0], if b == [] then a[0] else b[0], if c == [] then a[0] else c[0]);
      if b != [] && a[0] == b[0] && a[1..] == b[1..] { assert a == [a[0]] + a[1..] && b == [b[0]] + b[1..]; }
    }
  }

  /** Precedence is a strict total order on versions without build metadata. */
  lemma PrecedenceIsStrictTotalOrder(a: Semver, b: Semver, c: Semver)
    ensures !Below(a, a)
    ensures Below(a, b) && Below(b, c) ==> Below(a, c)
    ensures a == b || Below(a, b) || Below(b, a)
  {
    FieldsOrder(a.preRelease, b.preRelease, c.preRelease);
  }

  // ---- what precedence means ----

  /** One text is a proper beginning of the other, or the first characters that differ are in order. */
  ghost predicate TextPrecedes(a: string, b: string) {
    a < b || exists i :: 0 <= i < |a| && i < |b| && a[..i] == b[..i] && a[i] < b[i]
  }

  lemma {:induction false} TextBelowMeans(a: string, b: string)
    ensures TextBelow(a, b) <==> TextPrecedes(a, b)
  {
    if a != [] && b != [] && a[0] == b[0] {
      TextBelowMeans(a[1..], b[1..]);
      if i :| 0 <= i < |a[1..]| && i < |b[1..]| && a[1..][..i] == b[1..][..i] && a[1..][i] < b[1..][i] {
        assert a[..i + 1] == [a[0]] + a[1..][..i] && b[..i + 1] == [b[0]] + b[1..][..i];
        assert a[i + 1] < b[i + 1];
      }
      if i :| 0 <= i < |a| && i < |b| && a[..i] == b[..i] && a[i] < b[i] {
        assert a[1..][..i - 1] == a[..i][1..] && b[1..][..i - 1] == b[..i][1..];
      }
      assert a[1..] < b[1..] <==> a < b;
    } else if a != [] && b != [] {
      assert a[..0] == b[..0];
    }
  }

  /** A numeric identifier goes by its value and precedes every alphanumeric one; these go by their text. */
  ghost predicate IdentifierPrecedes(a: Identifier, b: Identifier) {
    || (a.Numeric? && b.Numeric? && a.n < b.n)
    || (a.Numeric? && b.Alphanumeric?)
    || (a.Alphanumeric? && b.Alphanumeric? && TextPrecedes(a.text, b.text))
  }

  lemma IdentifierBelowMeans(a: Identifier, b: Identifier)
    ensures IdentifierBelow(a, b) <==> IdentifierPrecedes(a, b)
  {
    if a.Alphanumeric? && b.Alphanumeric? { TextBelowMeans(a.text, b.text); }
  }

  /** One list is a proper beginning of the other, or the first identifiers that differ are in order. */
  ghost predicate FieldsPrecede(a: seq<Identifier>, b: seq<Identifier>) {
    a < b || exists i :: FieldsDifferAt(a, b, i)
  }

  /** The lists are equal up to `i`, and there they differ in order. */
  ghost predicate FieldsDifferAt(a: seq<Identifier>, b: seq<Identifier>, i: int) {
    0 <= i < |a| && i < |b| && a[..i] == b[..i] && IdentifierPrecedes(a[i], b[i])
  }

  lemma {:induction false} FieldsBelowMeans(a: seq<Identifier>, b: seq<Identifier>)
    ensures FieldsBelow(a, b) <==> FieldsPrecede(a, b)
  {
    if a != [] && b != [] {
      IdentifierBelowMeans(a[0], b[0]);
      IdentifierOrder(a[0], b[0], a[0]);
      assert a[..0] == b[..0];
      assert IdentifierPrecedes(a[0], b[0]) ==> FieldsDifferAt(a, b, 0);
      if a[0] == b[0] {
        FieldsBelowMeans(a[1..], b[1..]);
        if i :| FieldsDifferAt(a[1..], b[1..], i) {
          assert a[..i + 1] == [a[0]] + a[1..][..i] && b[..i + 1] == [b[0]] + b[1..][..i];
          assert FieldsDifferAt(a, b, i + 1);
        }
        if i :| FieldsDifferAt(a, b, i) {
          assert i > 0 && a[1..][..i - 1] == a[..i][1..] && b[1..][..i - 1] == b[..i][1..];
          assert FieldsDifferAt(a[1..], b[1..], i - 1);
        }
        assert a[1..] < b[1..] <==> a < b;
      }
    }
  }

  /** Precedence from outside: what decides between two versions, whatever the lower fields are. */
  ghost predicate Precedes(a: Semver, b: Semver) {
    || a.major < b.major
    || (a.major == b.major && a.minor < b.minor)
    || (a.major == b.major && a.minor == b.minor && a.patch < b.patch)
    || (a.major == b.major && a.minor == b.minor && a.patch == b.patch && a.preRelease != [] &&
        (b.preRelease == [] || FieldsPrecede(a.preRelease, b.preRelease)))
  }

  lemma BelowMeans(a: Semver, b: Semver)
    ensures Below(a, b) <==> Precedes(a, b)
  {
    FieldsBelowMeans(a.preRelease, b.preRelease);
  }

  /** Raising a number raises the version, with anything behind it. */
  lemma HigherNumbersWin(
    major: nat, minor: nat, patch: nat, d: nat, m: nat, p: nat, pre: seq<Identifier>, pre': seq<Identifier>)
    requires d > 0
    ensures Below(Semver(major, minor, patch, pre), Semver(major + d, m, p, pre'))
    ensures Below(Semver(major, minor, patch, pre), Semver(major, minor + d, p, pre'))
    ensures Below(Semver(major, minor, patch, pre), Semver(major, minor, patch + d, pre'))
  {
  }

  /**
   * A pre-release lies below its release, and a shorter list of identifiers below a longer one that it begins. The
   * first identifier that differs decides: numbers by value, numbers below texts, and texts by their first difference.
   */
  lemma PreReleasesInOrder(
    v: Semver, pre: seq<Identifier>, more: seq<Identifier>, more': seq<Identifier>,
    m: nat, n: nat, s: string, t: string, t': string, c: char, c': char)
    requires more != [] && m < n && c < c'
    ensures Below(v.(preRelease := more), v.(preRelease := []))
    ensures pre != [] ==> Below(v.(preRelease := pre), v.(preRelease := pre + more))
    ensures Below(v.(preRelease := pre + [Numeric(m)] + more), v.(preRelease := pre + [Numeric(n)] + more'))
    ensures Below(v.(preRelease := pre + [Numeric(n)] + more), v.(preRelease := pre + [Alphanumeric(t)] + more'))
    ensures Below(v.(preRelease := pre + [Alphanumeric(s)] + more),
      v.(preRelease := pre + [Alphanumeric(s + [c] + t)] + more'))
    ensures Below(v.(preRelease := pre + [Alphanumeric(s + [c] + t)] + more),
      v.(preRelease := pre + [Alphanumeric(s + [c'] + t')] + more'))
  {
    BelowMeans(v.(preRelease := pre), v.(preRelease := pre + more));
    assert TextPrecedes(s, s + [c] + t);
    assert TextPrecedes(s + [c] + t, s + [c'] + t') by {
      assert (s + [c] + t)[..|s|] == s == (s + [c'] + t')[..|s|];
      assert (s + [c] + t)[|s|] == c && (s + [c'] + t')[|s|] == c';
    }
    FirstDifferenceDecides(v, pre, Numeric(m), Numeric(n), more, more');
    FirstDifferenceDecides(v, pre, Numeric(n), Alphanumeric(t), more, more');
    FirstDifferenceDecides(v, pre, Alphanumeric(s), Alphanumeric(s + [c] + t), more, more');
    FirstDifferenceDecides(v, pre, Alphanumeric(s + [c] + t), Alphanumeric(s + [c'] + t'), more, more');
  }

  lemma FirstDifferenceDecides(
    v: Semver, pre: seq<Identifier>, a: Identifier, b: Identifier, more: seq<Identifier>, more': seq<Identifier>)
    requires IdentifierPrecedes(a, b)
    ensures Below(v.(preRelease := pre + [a] + more), v.(preRelease := pre + [b] + more'))
  {
    var x, y := pre + [a] + more, pre + [b] + more';
    assert x[..|pre|] == pre == y[..|pre|] && x[|pre|] == a && y[|pre|] == b;
    assert FieldsDifferAt(x, y, |pre|);
    BelowMeans(v.(preRelease := x), v.(preRelease := y));
  }

  // ---- admission ----

  datatype Verdict = Allowed | NotASemanticVersion | UpgradeUnderWay | UnreadableLastVersion | NotAnIncrement

  /** A version has to be given and to parse. */
  function ValidateReleaseVersion(parse: Parser, releaseVersion: string): Option<Semver> {
    if releaseVersion == "" then None else parse(releaseVersion)
  }

  function ValidateCreate(parse: Parser, plan: Plan): Verdict {
    if ValidateReleaseVersion(parse, plan.spec.releaseVersion).None? then NotASemanticVersion else Allowed
  }

  /** Reasons that lock a plan against edits. */
  predicate Locks(c: Condition) {
    c.reason in {InProgress, Pending, Error}
  }

  predicate Locked(conditions: Conditions) {
    exists t | t in conditions :: Locks(conditions[t])
  }

  function ValidateUpdate(parse: Parser, oldPlan: Plan, newPlan: Plan): Verdict {
    if newPlan.deleting && |newPlan.finalizers| < |oldPlan.finalizers| then Allowed
    else if Locked(newPlan.status.conditions) then UpgradeUnderWay
    else
      var version := ValidateReleaseVersion(parse, newPlan.spec.releaseVersion);
      var last := oldPlan.status.lastSuccessfulReleaseVersion;
      if version.None? then NotASemanticVersion
      else if last == "" then Allowed
      else if parse(last).None? then UnreadableLastVersion
      else if Below(parse(last).value, version.value) then Allowed
      else NotAnIncrement
  }

  /**
   * When an edit is admitted: not while a condition is in progress, pending or in error, not without a version that
   * parses, and not unless that version is above the last successful one, if there is one. Only an update that takes
   * finalizers off a deleting plan passes unseen.
   */
  lemma EditAllowedExactlyWhen(parse: Parser, oldPlan: Plan, newPlan: Plan)
    ensures ValidateUpdate(parse, oldPlan, newPlan) == Allowed <==>
      || (newPlan.deleting && |newPlan.finalizers| < |oldPlan.finalizers|)
      || (&& (forall t | t in newPlan.status.conditions ::
                newPlan.status.conditions[t].reason != InProgress &&
                newPlan.status.conditions[t].reason != Pending && newPlan.status.conditions[t].reason != Error)
          && newPlan.spec.releaseVersion != "" && parse(newPlan.spec.releaseVersion).Some?
          && var last := oldPlan.status.lastSuccessfulReleaseVersion;
             last != "" ==>
               parse(last).Some? && Precedes(parse(last).value, parse(newPlan.spec.releaseVersion).value))
    ensures ValidateCreate(parse, newPlan) == Allowed <==>
      newPlan.spec.releaseVersion != "" && parse(newPlan.spec.releaseVersion).Some?
    ensures ValidateUpdate(parse, oldPlan, newPlan) == UpgradeUnderWay <==>
      && !(newPlan.deleting && |newPlan.finalizers| < |oldPlan.finalizers|)
      && exists t | t in newPlan.status.conditions ::
           newPlan.status.conditions[t].reason in {InProgress, Pending, Error}
  {
    var last, wanted := parse(oldPlan.status.lastSuccessfulReleaseVersion), parse(newPlan.spec.releaseVersion);
    if last.Some? && wanted.Some? { BelowMeans(last.value, wanted.value); }
  }

  /** What being admitted tells: the two guards every edit of a live plan has passed. */
  lemma AdmittedEdit(parse: Parser, oldPlan: Plan, newPlan: Plan)
    requires ValidateUpdate(parse, oldPlan, newPlan) == Allowed
    requires !newPlan.deleting || |newPlan.finalizers| >= |oldPlan.finalizers|
    ensures !Locked(newPlan.status.conditions)
    ensures newPlan.spec.releaseVersion != "" && parse(newPlan.spec.releaseVersion).Some?
    ensures var last := oldPlan.status.lastSuccessfulReleaseVersion;
            last != "" ==> parse(last).Some? && Below(parse(last).value, parse(newPlan.spec.releaseVersion).value)
    ensures var last := oldPlan.status.lastSuccessfulReleaseVersion;
            last != "" ==> Precedes(parse(last).value, parse(newPlan.spec.releaseVersion).value)
  {
    EditAllowedExactlyWhen(parse, oldPlan, newPlan);
  }
}
