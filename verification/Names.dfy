/** Names of the objects created for the System Upgrade Controller, and the suffix that tells generations apart. */
module Names {
  import opened Prelude

  const ControlPlaneKey: string := "control-plane"
  const WorkersKey: string := "workers"

  newtype byte = x: int | 0 <= x < 256

  /** Five random bytes. */
  type Draw = s: seq<byte> | |s| == 5 witness [0, 0, 0, 0, 0]

  function HexDigit(n: int): char
    requires 0 <= n < 16
  {
    "0123456789abcdef"[n]
  }

  function HexEncode(bytes: seq<byte>): string {
    if bytes == [] then ""
    else [HexDigit(bytes[0] as int / 16), HexDigit(bytes[0] as int % 16)] + HexEncode(bytes[1..])
  }

  lemma {:induction false} HexLength(bytes: seq<byte>)
    ensures |HexEncode(bytes)| == 2 * |bytes|
  {
    if bytes != [] { HexLength(bytes[1..]); }
  }

  lemma {:induction false} HexInjective(a: seq<byte>, b: seq<byte>)
    requires HexEncode(a) == HexEncode(b)
    ensures a == b
  {
    HexLength(a);
    HexLength(b);
    if a != [] {
      var x, y := HexEncode(a), HexEncode(b);
      assert x[0] == y[0] && x[1] == y[1];
      assert x[2..] == HexEncode(a[1..]) && y[2..] == HexEncode(b[1..]);
      HexDigitInjective(a[0] as int / 16, b[0] as int / 16);
      HexDigitInjective(a[0] as int % 16, b[0] as int % 16);
      HexInjective(a[1..], b[1..]);
      assert a[0] == b[0];
      assert a == [a[0]] + a[1..] && b == [b[0]] + b[1..];
    }
  }

  lemma HexDigitInjective(m: int, n: int)
    requires 0 <= m < 16 && 0 <= n < 16 && HexDigit(m) == HexDigit(n)
    ensures m == n
  {
  }

  /** `GenerateSuffix`: the randomness, or its failure, comes from outside. */
  method GenerateSuffix(random: Option<Draw>) returns (suffix: Option<string>)
    ensures suffix.Some? <==> random.Some?
    ensures suffix.Some? ==> |suffix.value| == 10 && suffix.value == HexEncode(random.value)
  {
    if random.None? {
      return None;
    }
    HexLength(random.value);
    return Some(HexEncode(random.value));
  }

  function LowerChar(c: char): char {
    if 'A' <= c <= 'Z' then 'a' + (c - 'A') else c
  }

  /** Go's `strings.ToLower` on ASCII text. */
  function Lower(s: string): (r: string)
    ensures |r| == |s|
  {
    seq(|s|, i requires 0 <= i < |s| => LowerChar(s[i]))
  }

  /** Every character of `s` that occurs in `chars` becomes a dash. */
  function Dashed(s: string, chars: string): (r: string)
    ensures |r| == |s|
  {
    seq(|s|, i requires 0 <= i < |s| => if s[i] in chars then '-' else s[i])
  }

  /** The part of a plan or secret name before its suffix. */
  function OsStem(osName: string, osVersion: string): string {
    Lower(osName) + "-" + Dashed(osVersion, ".")
  }

  function KubernetesStem(version: string): string {
    Dashed(version, ".+")
  }

  function OsPlanName(key: string, osName: string, osVersion: string, suffix: string): string {
    PlanName(key, OsStem(osName, osVersion), suffix)
  }

  function OsSecretName(osName: string, osVersion: string, suffix: string): string {
    SecretName(OsStem(osName, osVersion), suffix)
  }

  function KubernetesPlanName(key: string, version: string, suffix: string): string {
    PlanName(key, KubernetesStem(version), suffix)
  }

  /** The names one generation may create: plans for both roles and both stages, and the secret. */
  ghost predicate PlanNameOf(name: string, suffix: string) {
    exists key, stem :: (key == ControlPlaneKey || key == WorkersKey) && name == PlanName(key, stem, suffix)
  }

  ghost predicate SecretNameOf(name: string, suffix: string) {
    exists stem: string :: name == SecretName(stem, suffix)
  }

  function PlanName(key: string, stem: string, suffix: string): string {
    key + "-" + stem + "-" + suffix
  }

  function SecretName(stem: string, suffix: string): string {
    "os-upgrade-secret-" + stem + "-" + suffix
  }

  /** Where the stem and the suffix sit in a name. */
  lemma PlanNameParts(key: string, stem: string, suffix: string)
    ensures var name := PlanName(key, stem, suffix);
            |name| == |key| + |stem| + |suffix| + 2 &&
            name[..|key|] == key &&
            name[|key| + 1..][..|stem|] == stem &&
            name[|name| - |suffix|..] == suffix
  {
  }

  lemma SecretNameParts(stem: string, suffix: string)
    ensures var name := SecretName(stem, suffix);
            |name| >= |suffix| && name[|name| - |suffix|..] == suffix
  {
  }

  /** Whatever the versions are, names built with different suffixes of one length differ. */
  lemma GenerationsShareNoName(name: string, s: string, t: string)
    requires |s| == |t| && s != t
    ensures !(PlanNameOf(name, s) && PlanNameOf(name, t))
    ensures !(SecretNameOf(name, s) && SecretNameOf(name, t))
  {
    if PlanNameOf(name, s) && PlanNameOf(name, t) {
      var k1, m1 :| name == PlanName(k1, m1, s);
      var k2, m2 :| name == PlanName(k2, m2, t);
      PlanNameParts(k1, m1, s);
      PlanNameParts(k2, m2, t);
    }
    if SecretNameOf(name, s) && SecretNameOf(name, t) {
      var m1: string :| name == SecretName(m1, s);
      var m2: string :| name == SecretName(m2, t);
      SecretNameParts(m1, s);
      SecretNameParts(m2, t);
    }
  }

  /** Two generations can meet in a name exactly when their suffixes are equal. */
  lemma GenerationsMeetExactlyWhen(s: string, t: string)
    requires |s| == |t|
    ensures (exists name :: PlanNameOf(name, s) && PlanNameOf(name, t)) <==> s == t
    ensures (exists name :: SecretNameOf(name, s) && SecretNameOf(name, t)) <==> s == t
  {
    if s == t {
      assert PlanNameOf(PlanName(ControlPlaneKey, "", s), s);
      assert SecretNameOf(SecretName("", s), s);
    } else {
      forall name
        ensures !(PlanNameOf(name, s) && PlanNameOf(name, t)) && !(SecretNameOf(name, s) && SecretNameOf(name, t))
      {
        GenerationsShareNoName(name, s, t);
      }
    }
  }

  lemma RolesDiffer(stem1: string, stem2: string, s: string, t: string)
    ensures PlanName(ControlPlaneKey, stem1, s) != PlanName(WorkersKey, stem2, t)
  {
    assert PlanName(ControlPlaneKey, stem1, s)[0] == 'c';
    assert PlanName(WorkersKey, stem2, t)[0] == 'w';
  }

  /** Within a generation two plan names meet exactly when role and stem do. */
  lemma PlanNamesMeetExactlyWhen(key1: string, stem1: string, key2: string, stem2: string, suffix: string)
    requires key1 in {ControlPlaneKey, WorkersKey} && key2 in {ControlPlaneKey, WorkersKey}
    ensures PlanName(key1, stem1, suffix) == PlanName(key2, stem2, suffix) <==> key1 == key2 && stem1 == stem2
  {
    if key1 == key2 {
      PlanNameParts(key1, stem1, suffix);
      PlanNameParts(key2, stem2, suffix);
    } else if key1 == ControlPlaneKey {
      RolesDiffer(stem1, stem2, suffix, suffix);
    } else {
      RolesDiffer(stem2, stem1, suffix, suffix);
    }
  }

  /** Stems of the two stages can be equal; then every plan name of one is a plan name of the other. */
  lemma StemsCanMeet(key: string, suffix: string)
    ensures OsPlanName(key, "v1", "30.3-k3s1", suffix) == KubernetesPlanName(key, "v1.30.3+k3s1", suffix)
  {
    assert OsStem("v1", "30.3-k3s1") == "v1-30-3-k3s1" == KubernetesStem("v1.30.3+k3s1");
  }
}
