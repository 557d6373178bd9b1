/** Chart values: the recursive merge that decides which values a chart is upgraded with. */
module Values {
  import opened Prelude

  /** A decoded YAML or JSON value. Everything that is not a string-keyed map is an opaque leaf. */
  datatype Value = Leaf(scalar: int) | Obj(fields: Fields)

  type Fields = map<string, Value>

  /** `m2` laid over `m1`: two maps under one key are merged, anything else in `m2` replaces. */
  function Merge(m1: Fields, m2: Fields): Fields
    decreases Obj(m2)
  {
    map k | k in m1.Keys + m2.Keys ::
      if k !in m2 then m1[k]
      else if k in m1 && m1[k].Obj? && m2[k].Obj? then Obj(Merge(m1[k].fields, m2[k].fields))
      else m2[k]
  }

  /** Values as a resource stores them: nothing, text that does not parse to a map, or a map. */
  datatype Raw = Absent | Malformed | Parsed(fields: Fields)

  /** Where the installed values come from; any other dynamic type is refused. */
  datatype Installed = FromChart(content: Raw) | FromRelease(config: Fields) | OtherType

  function Start(installed: Installed): Option<Fields> {
    match installed
    case FromChart(Absent) => Some(map[])
    case FromChart(Malformed) => None
    case FromChart(Parsed(f)) => Some(f)
    case FromRelease(config) => Some(config)
    case OtherType => None
  }

  function Overlay(base: Option<Fields>, extra: Raw): Option<Fields> {
    match extra
    case Absent => base
    case Malformed => None
    case Parsed(f) => if base.None? then None else Some(Merge(base.value, f))
  }

  /** No entry at all is written as an absent text. */
  function Store(values: Fields): Raw {
    if values == map[] then Absent else Parsed(values)
  }

  /** What `mergeHelmValues` returns; `None` is any parse failure. */
  function HelmValues(installed: Installed, release: Raw, user: Raw): Option<Raw> {
    var merged := Overlay(Overlay(Start(installed), release), user);
    if merged.None? then None else Some(Store(merged.value))
  }

  // ---- algebra ----

  function At(m: Fields, k: string): Option<Value> {
    if k in m then Some(m[k]) else None
  }

  /** What one key holds after laying `y` over `x`. */
  function Over(x: Option<Value>, y: Option<Value>): Option<Value> {
    if y.None? then x
    else if x.Some? && x.value.Obj? && y.value.Obj? then Some(Obj(Merge(x.value.fields, y.value.fields)))
    else y
  }

  lemma MergeAt(m1: Fields, m2: Fields, k: string)
    ensures At(Merge(m1, m2), k) == Over(At(m1, k), At(m2, k))
  {
  }

  lemma SameAtEveryKey(m1: Fields, m2: Fields)
    requires forall k :: At(m1, k) == At(m2, k)
    ensures m1 == m2
  {
    forall k ensures (k in m1 <==> k in m2) && (k in m1 ==> m1[k] == m2[k]) {
      assert At(m1, k) == At(m2, k);
    }
    assert m1.Keys == m2.Keys;
  }

  lemma MergeEmpty(m: Fields)
    ensures Merge(m, map[]) == m && Merge(map[], m) == m
  {
  }

  /** Laying the same map twice is laying it once, over any base. */
  lemma {:induction false} MergeAbsorbs(m1: Fields, m2: Fields)
    ensures Merge(Merge(m1, m2), m2) == Merge(m1, m2)
    decreases Obj(m2), 1
  {
    forall k ensures At(Merge(Merge(m1, m2), m2), k) == At(Merge(m1, m2), k) {
      MergeAt(Merge(m1, m2), m2, k);
      MergeAt(m1, m2, k);
      if k in m2 { OverAbsorbs(At(m1, k), m2[k]); }
    }
    SameAtEveryKey(Merge(Merge(m1, m2), m2), Merge(m1, m2));
  }

  lemma {:induction false} OverAbsorbs(x: Option<Value>, y: Value)
    ensures Over(Over(x, Some(y)), Some(y)) == Over(x, Some(y))
    decreases y, 2
  {
    if y.Obj? {
      if x.Some? && x.value.Obj? {
        assert Obj(y.fields) == y;
        MergeAbsorbs(x.value.fields, y.fields);
      } else {
        MergeAbsorbs(map[], y.fields);
        MergeEmpty(y.fields);
      }
    }
  }

  /** Release values then user values: doing both again changes nothing, whatever was installed. */
  lemma {:induction false} MergeTwiceFixpoint(installed: Fields, release: Fields, user: Fields)
    ensures var done := Merge(Merge(installed, release), user);
            Merge(Merge(done, release), user) == done
    decreases Obj(user), 1
  {
    var done := Merge(Merge(installed, release), user);
    var again := Merge(Merge(done, release), user);
    forall k ensures At(again, k) == At(done, k) {
      MergeAt(installed, release, k);
      MergeAt(Merge(installed, release), user, k);
      MergeAt(done, release, k);
      MergeAt(Merge(done, release), user, k);
      OverTwiceFixpoint(At(installed, k), At(release, k), At(user, k), user, k);
    }
    SameAtEveryKey(again, done);
  }

  lemma {:induction false} OverTwiceFixpoint(i: Option<Value>, r: Option<Value>, u: Option<Value>, user: Fields,
      k: string)
    requires u == At(user, k)
    ensures var done := Over(Over(i, r), u);
            Over(Over(done, r), u) == done
    decreases Obj(user), 0
  {
    if u.None? {
      if r.Some? { OverAbsorbs(i, r.value); }
    } else if r.None? {
      OverAbsorbs(i, u.value);
    } else if u.value.Obj? && r.value.Obj? {
      var base := if i.Some? && i.value.Obj? then i.value.fields else map[];
      MergeEmpty(r.value.fields);
      assert Over(Over(i, r), u) == Some(Obj(Merge(Merge(base, r.value.fields), u.value.fields)));
      MergeTwiceFixpoint(base, r.value.fields, u.value.fields);
    } else if u.value.Obj? {
      assert Over(Over(i, r), u) == u;
    }
  }

  /** Re-applying a chart's values is a fixpoint of the whole `mergeHelmValues`, absent parts included. */
  lemma ReapplyIsFixpoint(installed: Installed, release: Raw, user: Raw)
    requires HelmValues(installed, release, user).Some?
    ensures var stored := HelmValues(installed, release, user).value;
            HelmValues(FromChart(stored), release, user) == Some(stored)
  {
    var i := Start(installed).value;
    var r := if release.Parsed? then release.fields else map[];
    var u := if user.Parsed? then user.fields else map[];
    MergeEmpty(i);
    MergeEmpty(Merge(i, r));
    var done := Merge(Merge(i, r), u);
    assert Overlay(Overlay(Start(installed), release), user) == Some(done);
    MergeTwiceFixpoint(i, r, u);
    MergeEmpty(done);
    MergeEmpty(Merge(done, r));
  }

  /** Where maps of `a` and `c` meet across a non-map of `b`, `a` must add nothing to `c`. */
  predicate NothingLostAt(a: Fields, b: Fields, c: Fields, k: string)
    decreases Obj(c), 0
  {
    k in a && k in b && k in c && a[k].Obj? && c[k].Obj? ==>
      if b[k].Obj? then NothingLostAcross(a[k].fields, b[k].fields, c[k].fields)
      else Merge(a[k].fields, c[k].fields) == c[k].fields
  }

  predicate NothingLostAcross(a: Fields, b: Fields, c: Fields)
    decreases Obj(c), 1
  {
    forall k | k in c :: NothingLostAt(a, b, c, k)
  }

  lemma {:induction false} AssociativeAt(a: Fields, b: Fields, c: Fields, k: string)
    ensures At(Merge(Merge(a, b), c), k) == At(Merge(a, Merge(b, c)), k) <==> NothingLostAt(a, b, c, k)
    decreases Obj(c), 0
  {
    MergeAt(a, b, k);
    MergeAt(Merge(a, b), c, k);
    MergeAt(b, c, k);
    MergeAt(a, Merge(b, c), k);
    if k in a && k in b && k in c && a[k].Obj? && b[k].Obj? && c[k].Obj? {
      AssociativeExactlyWhen(a[k].fields, b[k].fields, c[k].fields);
    }
  }

  /** The merge is not associative; this is exactly when it is. */
  lemma {:induction false} AssociativeExactlyWhen(a: Fields, b: Fields, c: Fields)
    ensures Merge(Merge(a, b), c) == Merge(a, Merge(b, c)) <==> NothingLostAcross(a, b, c)
    decreases Obj(c), 1
  {
    var left, right := Merge(Merge(a, b), c), Merge(a, Merge(b, c));
    forall k ensures At(left, k) == At(right, k) <==> NothingLostAt(a, b, c, k) {
      AssociativeAt(a, b, c, k);
    }
    if NothingLostAcross(a, b, c) {
      forall k ensures At(left, k) == At(right, k) {
        assert k !in c ==> NothingLostAt(a, b, c, k);
      }
      SameAtEveryKey(left, right);
    }
  }

  /** A scalar in the middle loses the left map: the two groupings differ at the one key they share. */
  lemma MergeNotAssociative(k: string, left: Fields)
    requires left != map[]
    ensures var a, b, c := map[k := Obj(left)], map[k := Leaf(0)], map[k := Obj(map[])];
            Merge(Merge(a, b), c) == c && Merge(a, Merge(b, c)) == a && a != c
  {
    var a, b, c := map[k := Obj(left)], map[k := Leaf(0)], map[k := Obj(map[])];
    MergeEmpty(left);
    assert Merge(a, b) == b;
    assert Merge(b, c) == c;
    assert a[k] != c[k];
  }

  // ---- path semantics ----

  function Lookup(m: Fields, path: seq<string>): Option<Value>
    requires path != []
    decreases |path|
  {
    if path[0] !in m then None
    else if |path| == 1 then Some(m[path[0]])
    else if m[path[0]].Obj? then Lookup(m[path[0]].fields, path[1..])
    else None
  }

  /** `m2` leaves what lies at `path` alone: every prefix is unbound in it, or is a proper prefix bound to a map. */
  ghost predicate Spares(m2: Fields, path: seq<string>)
  {
    forall n | 0 < n <= |path| ::
      Lookup(m2, path[..n]).None? || (n < |path| && Lookup(m2, path[..n]).value.Obj?)
  }

  lemma SparesTail(m2: Fields, path: seq<string>)
    requires |path| > 1
    ensures Spares(m2, path) <==>
      (path[0] !in m2 || (m2[path[0]].Obj? && Spares(m2[path[0]].fields, path[1..])))
  {
    assert path[..1] == [path[0]];
    forall n | 1 < n <= |path|
      ensures Lookup(m2, path[..n]) ==
        if path[0] in m2 && m2[path[0]].Obj? then Lookup(m2[path[0]].fields, path[1..][..n - 1]) else None
    {
      assert path[..n][1..] == path[1..][..n - 1];
    }
    if path[0] in m2 && m2[path[0]].Obj? && Spares(m2, path) {
      forall n | 0 < n <= |path[1..]|
        ensures Lookup(m2[path[0]].fields, path[1..][..n]).None?
             || (n < |path[1..]| && Lookup(m2[path[0]].fields, path[1..][..n]).value.Obj?)
      {
        assert Lookup(m2, path[..n + 1]) == Lookup(m2[path[0]].fields, path[1..][..n]);
      }
    }
    if path[0] in m2 && m2[path[0]].Obj? && Spares(m2[path[0]].fields, path[1..]) {
      forall n | 0 < n <= |path|
        ensures Lookup(m2, path[..n]).None? || (n < |path| && Lookup(m2, path[..n]).value.Obj?)
      {
        if n > 1 {
          assert 0 < n - 1 <= |path[1..]|;
        }
      }
    }
    if path[0] in m2 && !m2[path[0]].Obj? {
      assert Lookup(m2, path[..1]) == Some(m2[path[0]]);
    }
  }

  /** Path by path: the second map's leaf wins; a leaf of the first survives exactly when it is spared. */
  lemma {:induction false} MergePathSemantics(m1: Fields, m2: Fields, path: seq<string>)
    requires path != []
    ensures forall x: int :: Lookup(Merge(m1, m2), path) == Some(Leaf(x)) <==>
      Lookup(m2, path) == Some(Leaf(x)) || (Lookup(m1, path) == Some(Leaf(x)) && Spares(m2, path))
    ensures (Lookup(Merge(m1, m2), path).Some? && Lookup(Merge(m1, m2), path).value.Obj?) <==>
      (Lookup(m2, path).Some? && Lookup(m2, path).value.Obj?) ||
      (Lookup(m1, path).Some? && Lookup(m1, path).value.Obj? && Spares(m2, path))
    decreases |path|
  {
    var k := path[0];
    if |path| == 1 {
      assert path[..1] == path;
    } else {
      SparesTail(m2, path);
      if k in m1 && k in m2 && m1[k].Obj? && m2[k].Obj? {
        MergePathSemantics(m1[k].fields, m2[k].fields, path[1..]);
      }
    }
  }

  // ---- the whole operation ----

  /** The installed values as they come in. */
  function InstalledRaw(installed: Installed): Raw {
    match installed
    case FromChart(content) => content
    case FromRelease(config) => Parsed(config)
    case OtherType => Malformed
  }

  function LookupRaw(values: Raw, path: seq<string>): Option<Value>
    requires path != []
  {
    if values.Parsed? then Lookup(values.fields, path) else None
  }

  /** Values that are not given leave every path alone. */
  ghost predicate SparesRaw(values: Raw, path: seq<string>) {
    values.Parsed? ==> Spares(values.fields, path)
  }

  function FieldsOf(values: Raw): Fields {
    if values.Parsed? then values.fields else map[]
  }

  lemma GivenOrEmpty(values: Raw, path: seq<string>)
    requires path != []
    ensures LookupRaw(values, path) == Lookup(FieldsOf(values), path) &&
      (SparesRaw(values, path) <==> Spares(FieldsOf(values), path))
  {
    if !values.Parsed? {
      assert forall n | 0 < n <= |path| :: Lookup(map[], path[..n]).None?;
    }
  }

  /**
   * Values cannot be merged exactly when some part of them does not parse, or the installed ones are of another type.
   */
  lemma HelmValuesFailExactlyWhen(installed: Installed, release: Raw, user: Raw)
    ensures HelmValues(installed, release, user).None? <==>
      installed.OtherType? || installed == FromChart(Malformed) || release.Malformed? || user.Malformed?
  {
  }

  /** Merged values without an entry are stored as absent, never as an empty map. */
  lemma EmptyIsAbsent(installed: Installed, release: Raw, user: Raw)
    ensures HelmValues(installed, release, user) != Some(Parsed(map[])) &&
      HelmValues(installed, release, user) != Some(Malformed)
  {
  }

  lemma HelmValuesMerge(installed: Installed, release: Raw, user: Raw)
    requires HelmValues(installed, release, user).Some?
    ensures FieldsOf(HelmValues(installed, release, user).value) ==
      Merge(Merge(FieldsOf(InstalledRaw(installed)), FieldsOf(release)), FieldsOf(user))
  {
    var i := FieldsOf(InstalledRaw(installed));
    MergeEmpty(i);
    MergeEmpty(Merge(i, FieldsOf(release)));
  }

  /**
   * Path by path, what the merged values hold. A leaf of the user's values wins; next comes a leaf of the release's
   * values, if the user's spare the path; and last a leaf of the installed values, if both spare it. The same for maps.
   */
  lemma HelmValuesPathSemantics(installed: Installed, release: Raw, user: Raw, path: seq<string>)
    requires HelmValues(installed, release, user).Some? && path != []
    ensures forall x: int :: LookupRaw(HelmValues(installed, release, user).value, path) == Some(Leaf(x)) <==>
      || LookupRaw(user, path) == Some(Leaf(x))
      || (SparesRaw(user, path) && LookupRaw(release, path) == Some(Leaf(x)))
      || (SparesRaw(user, path) && SparesRaw(release, path) &&
        LookupRaw(InstalledRaw(installed), path) == Some(Leaf(x)))
    ensures IsMap(LookupRaw(HelmValues(installed, release, user).value, path)) <==>
      || IsMap(LookupRaw(user, path))
      || (SparesRaw(user, path) && IsMap(LookupRaw(release, path)))
      || (SparesRaw(user, path) && SparesRaw(release, path) && IsMap(LookupRaw(InstalledRaw(installed), path)))
  {
    var i, r, u := FieldsOf(InstalledRaw(installed)), FieldsOf(release), FieldsOf(user);
    HelmValuesMerge(installed, release, user);
    MergePathSemantics(i, r, path);
    MergePathSemantics(Merge(i, r), u, path);
    GivenOrEmpty(HelmValues(installed, release, user).value, path);
    GivenOrEmpty(InstalledRaw(installed), path);
    GivenOrEmpty(release, path);
    GivenOrEmpty(user, path);
  }

  predicate IsMap(v: Option<Value>) {
    v.Some? && v.value.Obj?
  }
}
