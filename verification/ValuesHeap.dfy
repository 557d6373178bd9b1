/** The same merge on Go's mutable maps, which the results share with their inputs. */
module ValuesHeap {
  import opened Prelude
  import opened Values

  /** A dynamic value held in a Go map: a scalar, or a reference to a nested map. */
  datatype Slot = Scalar(x: int) | Ref(target: GoMap)

  /** Go's `map[string]any`. */
  class GoMap {
    var entries: map<string, Slot>

    constructor (entries: map<string, Slot>)
      ensures this.entries == entries
    {
      this.entries := entries;
    }
  }

  /** `g`, read through the maps in `heap`, is the tree `t`. Nested maps may be shared. */
  ghost predicate Represents(g: GoMap, t: Fields, heap: set<GoMap>)
    reads heap
    decreases Obj(t), 1
  {
    g in heap && SlotsRepresent(g.entries, t, heap)
  }

  ghost predicate SlotsRepresent(slots: map<string, Slot>, t: Fields, heap: set<GoMap>)
    reads heap
    decreases Obj(t), 0
  {
    slots.Keys == t.Keys && forall k | k in t :: SlotRepresents(slots[k], t, k, heap)
  }

  ghost predicate SlotRepresents(slot: Slot, t: Fields, k: string, heap: set<GoMap>)
    requires k in t
    reads heap
    decreases Obj(t), 0, 0
  {
    match t[k]
    case Leaf(x) => slot == Scalar(x)
    case Obj(f) => slot.Ref? && Represents(slot.target, f, heap)
  }

  /** More maps in view change nothing. */
  lemma {:induction false} RepresentsInLarger(g: GoMap, t: Fields, heap: set<GoMap>, larger: set<GoMap>)
    requires Represents(g, t, heap) && heap <= larger
    ensures Represents(g, t, larger)
    decreases Obj(t)
  {
    forall k | k in t ensures SlotRepresents(g.entries[k], t, k, larger) {
      assert SlotRepresents(g.entries[k], t, k, heap);
      if t[k].Obj? {
        RepresentsInLarger(g.entries[k].target, t[k].fields, heap, larger);
      }
    }
  }

  lemma SlotInLarger(slot: Slot, t: Fields, k: string, heap: set<GoMap>, larger: set<GoMap>)
    requires k in t && SlotRepresents(slot, t, k, heap) && heap <= larger
    ensures SlotRepresents(slot, t, k, larger)
  {
    if t[k].Obj? { RepresentsInLarger(slot.target, t[k].fields, heap, larger); }
  }

  lemma SlotsInLarger(slots: map<string, Slot>, t: Fields, heap: set<GoMap>, larger: set<GoMap>)
    requires SlotsRepresent(slots, t, heap) && heap <= larger
    ensures SlotsRepresent(slots, t, larger)
  {
    forall k | k in t ensures SlotRepresents(slots[k], t, k, larger) {
      SlotInLarger(slots[k], t, k, heap, larger);
    }
  }

  /** The first loop of `mergeMaps`: a fresh map with the same entries. */
  method CopyOf(m: GoMap) returns (out: GoMap)
    ensures fresh(out) && out.entries == m.entries
  {
    out := new GoMap(map[]);
    var rest := m.entries.Keys;
    while rest != {}
      invariant out != m && rest <= m.entries.Keys && out.entries.Keys == m.entries.Keys - rest
      invariant forall k | k in out.entries :: out.entries[k] == m.entries[k]
      decreases rest
    {
      var k :| k in rest;
      out.entries := out.entries[k := m.entries[k]];
      rest := rest - {k};
    }
  }

  /** One turn of the second loop: entry `k` of the second map is laid over the entry `out` has for it. */
  method LayEntry(out: GoMap, k: string, v: Slot, ghost t1: Fields, ghost t2: Fields, ghost heap: set<GoMap>)
    returns (ghost grown: set<GoMap>)
    requires out !in heap && k in t2 && SlotRepresents(v, t2, k, heap)
    requires k in t1 <==> k in out.entries
    requires k in t1 ==> SlotRepresents(out.entries[k], t1, k, heap)
    modifies out
    ensures heap <= grown && fresh(grown - heap) && out !in grown
    ensures k in out.entries && out.entries == old(out.entries)[k := out.entries[k]]
    ensures SlotRepresents(out.entries[k], Merge(t1, t2), k, grown)
    decreases Obj(t2), 0, 0
  {
    grown := heap;
    if v.Ref? && k in out.entries && out.entries[k].Ref? {
      var inner;
      inner, grown := MergeMaps(out.entries[k].target, v.target, t1[k].fields, t2[k].fields, heap);
      assert SlotRepresents(Ref(inner), Merge(t1, t2), k, grown);
      label written:
      out.entries := out.entries[k := Ref(inner)];
      assert Represents(inner, Merge(t1, t2)[k].fields, grown);
    } else {
      assert Merge(t1, t2)[k] == t2[k];
      assert SlotRepresents(v, Merge(t1, t2), k, grown);
      out.entries := out.entries[k := v];
    }
  }

  /** How far the second loop has come: `rest` is still to be laid over a copy of `first`. */
  ghost predicate Progress(slots: map<string, Slot>, first: map<string, Slot>, t1: Fields, t2: Fields,
                           rest: set<string>, heap: set<GoMap>)
    reads heap
  {
    && rest <= t2.Keys
    && slots.Keys == t1.Keys + (t2.Keys - rest)
    && (forall k | k in rest && k in first :: k in slots && slots[k] == first[k])
    && Laid(slots, Merge(t1, t2), rest, heap)
  }

  lemma ProgressByOne(was: map<string, Slot>, slots: map<string, Slot>, first: map<string, Slot>, t1: Fields,
      t2: Fields,
                      rest: set<string>, k: string, heap: set<GoMap>, larger: set<GoMap>)
    requires Progress(was, first, t1, t2, rest, heap) && heap <= larger && k in rest
    requires k in slots && slots == was[k := slots[k]]
    requires SlotRepresents(slots[k], Merge(t1, t2), k, larger)
    ensures Progress(slots, first, t1, t2, rest - {k}, larger)
  {
    LaidOneMore(was, slots, Merge(t1, t2), rest, k, heap, larger);
  }

  /** The second loop of `mergeMaps`: every entry of `m2` is laid over `out`, a copy of the first map. */
  method LayAll(out: GoMap, m2: GoMap, ghost t1: Fields, ghost t2: Fields, ghost heap: set<GoMap>)
    returns (ghost grown: set<GoMap>)
    requires out !in heap && SlotsRepresent(out.entries, t1, heap) && Represents(m2, t2, heap)
    modifies out
    ensures heap <= grown && fresh(grown - heap) && out !in grown
    ensures Progress(out.entries, old(out.entries), t1, t2, {}, grown)
    decreases Obj(t2), 1
  {
    ghost var first := out.entries;
    grown := heap;
    var rest := m2.entries.Keys;
    LaidByCopy(first, t1, t2, heap);
    while rest != {}
      invariant heap <= grown && fresh(grown - heap) && out !in grown
      invariant Progress(out.entries, first, t1, t2, rest, grown)
      decreases rest
    {
      var k :| k in rest;
      grown := LayNext(out, m2, k, first, t1, t2, rest, heap, grown);
      rest := rest - {k};
    }
  }

  /** One turn of that loop. */
  method LayNext(out: GoMap, m2: GoMap, k: string, ghost first: map<string, Slot>, ghost t1: Fields, ghost t2: Fields,
                 ghost rest: set<string>, ghost heap: set<GoMap>, ghost seen: set<GoMap>)
    returns (ghost grown: set<GoMap>)
    requires heap <= seen && out !in seen && SlotsRepresent(first, t1, heap) && Represents(m2, t2, heap)
    requires Progress(out.entries, first, t1, t2, rest, seen) && k in rest
    modifies out
    ensures seen <= grown && fresh(grown - seen) && out !in grown
    ensures Progress(out.entries, first, t1, t2, rest - {k}, grown)
    decreases Obj(t2), 0, 1
  {
    ghost var was := out.entries;
    SlotInLarger(m2.entries[k], t2, k, heap, seen);
    if k in t1 { SlotInLarger(first[k], t1, k, heap, seen); }
    grown := LayEntry(out, k, m2.entries[k], t1, t2, seen);
    ProgressByOne(was, out.entries, first, t1, t2, rest, k, seen, grown);
  }

  /**
   * `mergeMaps`. Nothing that existed before the call is written: there is no `modifies` clause,
   * and both inputs still denote the same trees in the grown heap.
   */
  method MergeMaps(m1: GoMap, m2: GoMap, ghost t1: Fields, ghost t2: Fields, ghost heap: set<GoMap>)
    returns (out: GoMap, ghost grown: set<GoMap>)
    requires Represents(m1, t1, heap) && Represents(m2, t2, heap)
    ensures fresh(out) && out in grown && heap <= grown && fresh(grown - heap)
    ensures Represents(out, Merge(t1, t2), grown)
    ensures Represents(m1, t1, grown) && Represents(m2, t2, grown)
    decreases Obj(t2), 2
  {
    out := CopyOf(m1);
    ghost var seen := LayAll(out, m2, t1, t2, heap);
    grown := seen + {out};
    RepresentsInLarger(m1, t1, heap, grown);
    RepresentsInLarger(m2, t2, heap, grown);
    AllLaid(out.entries, Merge(t1, t2), seen, grown);
  }

  /** Every entry outside `rest` is final. */
  ghost predicate Laid(slots: map<string, Slot>, merged: Fields, rest: set<string>, heap: set<GoMap>)
    reads heap
  {
    forall k | k in merged && k !in rest :: k in slots && SlotRepresents(slots[k], merged, k, heap)
  }

  lemma LaidByCopy(first: map<string, Slot>, t1: Fields, t2: Fields, heap: set<GoMap>)
    requires SlotsRepresent(first, t1, heap)
    ensures Laid(first, Merge(t1, t2), t2.Keys, heap)
  {
    forall k | k in Merge(t1, t2) && k !in t2.Keys
      ensures k in first && SlotRepresents(first[k], Merge(t1, t2), k, heap)
    {
      assert SlotRepresents(first[k], t1, k, heap) && Merge(t1, t2)[k] == t1[k];
    }
  }

  lemma LaidOneMore(was: map<string, Slot>, slots: map<string, Slot>, merged: Fields, rest: set<string>,
                    k: string, heap: set<GoMap>, larger: set<GoMap>)
    requires Laid(was, merged, rest, heap) && heap <= larger
    requires k in slots && slots == was[k := slots[k]]
    requires k in merged ==> SlotRepresents(slots[k], merged, k, larger)
    ensures Laid(slots, merged, rest - {k}, larger)
  {
    forall j | j in merged && j !in rest - {k}
      ensures j in slots && SlotRepresents(slots[j], merged, j, larger)
    {
      if j != k { SlotInLarger(was[j], merged, j, heap, larger); }
    }
  }

  lemma AllLaid(slots: map<string, Slot>, merged: Fields, heap: set<GoMap>, larger: set<GoMap>)
    requires slots.Keys == merged.Keys && Laid(slots, merged, {}, heap) && heap <= larger
    ensures SlotsRepresent(slots, merged, larger)
  {
    forall k | k in merged ensures SlotRepresents(slots[k], merged, k, larger) {
      SlotInLarger(slots[k], merged, k, heap, larger);
    }
  }

  /** Text after decoding: nothing, unparsable, or a map in memory. */
  datatype RawRef = AbsentRef | MalformedRef | ParsedRef(g: GoMap)

  /** Installed values: decoded chart text, a release's own configuration map, or any other type. */
  datatype InstalledRef = ChartText(text: RawRef) | ReleaseConfig(config: GoMap) | OtherRef

  ghost predicate RawRepresents(r: RawRef, t: Raw, heap: set<GoMap>)
    reads heap
  {
    match t
    case Absent => r.AbsentRef?
    case Malformed => r.MalformedRef?
    case Parsed(f) => r.ParsedRef? && Represents(r.g, f, heap)
  }

  ghost predicate InstalledRepresents(i: InstalledRef, t: Installed, heap: set<GoMap>)
    reads heap
  {
    match t
    case FromChart(raw) => i.ChartText? && RawRepresents(i.text, raw, heap)
    case FromRelease(config) => i.ReleaseConfig? && Represents(i.config, config, heap)
    case OtherType => i.OtherRef?
  }

  lemma RawInLarger(r: RawRef, t: Raw, heap: set<GoMap>, larger: set<GoMap>)
    requires RawRepresents(r, t, heap) && heap <= larger
    ensures RawRepresents(r, t, larger)
  {
    if t.Parsed? { RepresentsInLarger(r.g, t.fields, heap, larger); }
  }

  /** The optional overlay step of `mergeHelmValues`; `values` is left alone and a merged map takes its place. */
  method OverlayOn(values: GoMap, extra: RawRef, ghost t: Fields, ghost te: Raw, ghost heap: set<GoMap>)
    returns (ok: bool, out: GoMap, ghost grown: set<GoMap>)
    requires Represents(values, t, heap) && RawRepresents(extra, te, heap)
    ensures heap <= grown && fresh(grown - heap)
    ensures ok == Overlay(Some(t), te).Some?
    ensures ok ==> Represents(out, Overlay(Some(t), te).value, grown)
  {
    ok, out, grown := true, values, heap;
    match extra {
      case AbsentRef =>
      case MalformedRef => ok := false;
      case ParsedRef(g) => out, grown := MergeMaps(values, g, t, te.fields, heap);
    }
  }

  /** The first step of `mergeHelmValues`: a release's configuration is copied one level deep, sharing what is below. */
  method StartFrom(installed: InstalledRef, ghost ti: Installed, ghost heap: set<GoMap>)
    returns (ok: bool, values: GoMap, ghost grown: set<GoMap>)
    requires InstalledRepresents(installed, ti, heap)
    ensures heap <= grown && fresh(grown - heap)
    ensures ok == Start(ti).Some?
    ensures ok ==> Represents(values, Start(ti).value, grown)
  {
    values := new GoMap(map[]);
    ok := true;
    grown := heap + {values};
    match installed {
      case ChartText(text) =>
        if text.ParsedRef? {
          values, grown := text.g, heap;
        } else {
          ok := text.AbsentRef?;
        }
      case ReleaseConfig(config) =>
        assert Represents(config, ti.config, heap);
        values := CopyOf(config);
        grown := heap + {values};
        SlotsInLarger(values.entries, ti.config, heap, grown);
      case OtherRef =>
        ok := false;
    }
  }

  /**
   * `mergeHelmValues`: succeeds exactly when every text parses, denotes what `HelmValues` says, and writes
   * only to maps it allocates, so the installed values and all maps below them are as they were.
   */
  method MergeHelmValues(installed: InstalledRef, release: RawRef, user: RawRef,
                         ghost ti: Installed, ghost tr: Raw, ghost tu: Raw, ghost heap: set<GoMap>)
    returns (ok: bool, empty: bool, values: GoMap, ghost grown: set<GoMap>)
    requires InstalledRepresents(installed, ti, heap) && RawRepresents(release, tr, heap) &&
      RawRepresents(user, tu, heap)
    ensures heap <= grown && fresh(grown - heap)
    ensures ok == HelmValues(ti, tr, tu).Some?
    ensures ok && empty ==> HelmValues(ti, tr, tu) == Some(Absent)
    ensures ok && !empty ==> exists t :: HelmValues(ti, tr, tu) == Some(Parsed(t)) && Represents(values, t, grown)
    ensures InstalledRepresents(installed, ti, heap)
  {
    empty := true;
    ok, values, grown := StartFrom(installed, ti, heap);
    if !ok { return; }
    ghost var seen := grown;
    RawInLarger(release, tr, heap, seen);
    ok, values, grown := OverlayOn(values, release, Start(ti).value, tr, seen);
    if !ok { return; }
    seen := grown;
    RawInLarger(user, tu, heap, seen);
    ok, values, grown := OverlayOn(values, user, Overlay(Start(ti), tr).value, tu, seen);
    if !ok { return; }
    ghost var t := Overlay(Overlay(Start(ti), tr), tu).value;
    empty := values.entries.Keys == {};
    assert empty <==> t == map[];
  }
}
