/** The container image check behind the upgrade status of a core Deployment. */
module Containers {
  import opened Prelude

  datatype Container = Container(name: string, image: string)

  predicate ImageMatches(actual: string, wanted: string, strict: bool) {
    if strict then actual == wanted else HasSubstring(actual, wanted)
  }

  /** Every container that is asked about carries the image asked for. */
  predicate NoMismatch(containers: seq<Container>, contains: map<string, string>, strict: bool) {
    forall c | c in containers && c.name in contains :: ImageMatches(c.image, contains[c.name], strict)
  }

  /** How many containers are asked about. */
  function Hits(containers: seq<Container>, contains: map<string, string>): nat {
    if containers == [] then 0
    else
      var last := |containers| - 1;
      var before := Hits(containers[..last], contains);
      if containers[last].name in contains then before + 1 else before
  }

  /** The names asked about that some container has. */
  function Found(containers: seq<Container>, contains: map<string, string>): set<string> {
    set c | c in containers && c.name in contains :: c.name
  }

  /** What the documentation promises: every required name is there, with a matching image. */
  ghost predicate AllPresent(containers: seq<Container>, contains: map<string, string>, strict: bool) {
    && (forall n | n in contains :: exists c :: c in containers && c.name == n)
    && NoMismatch(containers, contains, strict)
  }

  /** What the loop answers: no mismatch, and as many hits as names required. */
  predicate Answer(containers: seq<Container>, contains: map<string, string>, strict: bool) {
    NoMismatch(containers, contains, strict) && Hits(containers, contains) == |contains|
  }

  method ContainsContainerImages(containers: seq<Container>, contains: map<string, string>, strict: bool)
    returns (r: bool)
    ensures r <==> Answer(containers, contains, strict)
  {
    var foundContainers := 0;
    for i := 0 to |containers|
      invariant foundContainers == Hits(containers[..i], contains)
      invariant NoMismatch(containers[..i], contains, strict)
    {
      var container := containers[i];
      assert containers[..i + 1][..i] == containers[..i];
      if container.name !in contains {
        continue;
      }
      var image := contains[container.name];
      foundContainers := foundContainers + 1;
      if strict && container.image != image {
        assert container in containers;
        return false;
      }
      if !strict && !HasSubstring(container.image, image) {
        assert container in containers;
        return false;
      }
    }
    assert containers[..|containers|] == containers;
    return foundContainers == |contains|;
  }

  ghost predicate UniqueNames(containers: seq<Container>) {
    forall i, j | 0 <= i < j < |containers| :: containers[i].name != containers[j].name
  }

  /** No name that is asked about occurs twice. */
  ghost predicate UniqueAmong(containers: seq<Container>, contains: map<string, string>) {
    forall i, j | 0 <= i < j < |containers| && containers[i].name in contains ::
      containers[i].name != containers[j].name
  }

  /** Counting containers counts names, except that a repeated name counts again. */
  lemma {:induction false} HitsCoverFound(containers: seq<Container>, contains: map<string, string>)
    ensures |Found(containers, contains)| <= Hits(containers, contains)
    ensures UniqueAmong(containers, contains) ==> |Found(containers, contains)| == Hits(containers, contains)
  {
    if containers != [] {
      var last := containers[|containers| - 1];
      var front := containers[..|containers| - 1];
      HitsCoverFound(front, contains);
      assert containers == front + [last];
      if last.name in contains {
        assert Found(containers, contains) == Found(front, contains) + {last.name};
        if UniqueAmong(containers, contains) {
          forall c | c in front ensures c.name != last.name {
            var i :| 0 <= i < |front| && front[i] == c;
            assert containers[i].name != containers[|containers| - 1].name;
          }
          assert last.name !in Found(front, contains);
        }
      } else {
        assert Found(containers, contains) == Found(front, contains);
      }
    }
  }

  /** All names are found exactly when as many are found as are required. */
  lemma FoundAll(containers: seq<Container>, contains: map<string, string>)
    ensures |Found(containers, contains)| == |contains| <==>
            forall n | n in contains :: exists c :: c in containers && c.name == n
  {
    var found := Found(containers, contains);
    assert found <= contains.Keys;
    if |found| == |contains| {
      if found != contains.Keys {
        SmallerSubset(found, contains.Keys);
      }
      forall n | n in contains ensures exists c :: c in containers && c.name == n {
        assert n in found;
      }
    }
    if forall n | n in contains :: exists c :: c in containers && c.name == n {
      assert found == contains.Keys;
    }
  }

  lemma {:induction false} SmallerSubset(a: set<string>, b: set<string>)
    requires a < b
    ensures |a| < |b|
  {
    assert exists x :: x in b && x !in a;
    var x :| x in b && x !in a;
    SubsetSize(a, b - {x});
  }

  lemma {:induction false} SubsetSize(a: set<string>, b: set<string>)
    requires a <= b
    ensures |a| <= |b|
  {
    if a != {} {
      var x :| x in a;
      SubsetSize(a - {x}, b - {x});
    }
  }

  /** As long as no name asked about occurs twice, the check is exactly what is promised. */
  lemma CheckIsExact(containers: seq<Container>, contains: map<string, string>, strict: bool)
    requires UniqueAmong(containers, contains)
    ensures Answer(containers, contains, strict) <==> AllPresent(containers, contains, strict)
  {
    FoundAll(containers, contains);
    HitsCoverFound(containers, contains);
  }

  lemma {:induction false} TwoHits(containers: seq<Container>, contains: map<string, string>, i: nat, j: nat)
    requires i < j < |containers| && containers[i].name in contains && containers[j].name in contains
    ensures Hits(containers, contains) >= 2
  {
    var last := |containers| - 1;
    if j < last {
      TwoHits(containers[..last], contains, i, j);
    } else {
      HitsCoverFound(containers[..last], contains);
      assert containers[i] in containers[..last];
      assert containers[i].name in Found(containers[..last], contains);
    }
  }

  /** For one name listed twice, asking for it alone is refused though it is there. */
  lemma RepeatedNameIsRefused(containers: seq<Container>, i: nat, j: nat, image: string, strict: bool)
    requires i < j < |containers| && containers[i].name == containers[j].name
    requires NoMismatch(containers, map[containers[i].name := image], strict)
    ensures var contains := map[containers[i].name := image];
      !Answer(containers, contains, strict) && AllPresent(containers, contains, strict)
  {
    var contains := map[containers[i].name := image];
    TwoHits(containers, contains, i, j);
    assert contains.Keys == {containers[i].name};
    assert containers[i] in containers;
  }

  /** Whatever is asked for, the answer is the promised one. */
  ghost predicate ExactFor(containers: seq<Container>, strict: bool) {
    forall contains :: Answer(containers, contains, strict) <==> AllPresent(containers, contains, strict)
  }

  /** The lenient check is exact on a list, for whatever is asked for, exactly when no name occurs twice in it. */
  lemma LenientExactIff(containers: seq<Container>)
    ensures ExactFor(containers, false) <==> UniqueNames(containers)
  {
    if UniqueNames(containers) {
      forall contains ensures Answer(containers, contains, false) <==> AllPresent(containers, contains, false) {
        CheckIsExact(containers, contains, false);
      }
    } else {
      var i, j :| 0 <= i < j < |containers| && containers[i].name == containers[j].name;
      RepeatedNameIsRefused(containers, i, j, "", false);
    }
  }

  /** A name that occurs twice occurs with two images. */
  ghost predicate RepeatsDiffer(containers: seq<Container>) {
    forall i, j | 0 <= i < j < |containers| && containers[i].name == containers[j].name ::
      exists c :: c in containers && c.name == containers[i].name && c.image != containers[i].image
  }

  /** The strict check is exact on a list exactly when no name occurs twice with one image only. */
  lemma StrictExactIff(containers: seq<Container>)
    ensures ExactFor(containers, true) <==> RepeatsDiffer(containers)
  {
    if RepeatsDiffer(containers) {
      forall contains ensures Answer(containers, contains, true) <==> AllPresent(containers, contains, true) {
        if NoMismatch(containers, contains, true) {
          assert UniqueAmong(containers, contains);
          CheckIsExact(containers, contains, true);
        }
      }
    } else {
      var i, j :| 0 <= i < j < |containers| && containers[i].name == containers[j].name &&
        forall c | c in containers && c.name == containers[i].name :: c.image == containers[i].image;
      RepeatedNameIsRefused(containers, i, j, containers[i].image, true);
    }
  }

  /** A name listed twice can also stand in for one that is missing. */
  lemma RepeatedNameHidesMissingOne(a: string, b: string, image: string)
    requires a != b
    ensures
      var containers := [Container(a, image), Container(a, image)];
      var contains := map[a := image, b := image];
      Answer(containers, contains, true) && !AllPresent(containers, contains, true)
  {
    var containers := [Container(a, image), Container(a, image)];
    var contains := map[a := image, b := image];
    assert containers[..1] == [Container(a, image)] && containers[..1][..0] == [];
    assert Hits(containers[..1], contains) == 1;
    assert contains.Keys == {a, b};
    assert forall c | c in containers :: c.name != b;
    assert b in contains;
  }

  /** A strict success is a lenient success. */
  lemma StrictImpliesLenient(containers: seq<Container>, contains: map<string, string>)
    requires Answer(containers, contains, true)
    ensures Answer(containers, contains, false)
  {
    forall c | c in containers && c.name in contains ensures HasSubstring(c.image, contains[c.name]) {
      assert ImageMatches(c.image, contains[c.name], true);
      assert c.image <= c.image;
    }
  }

  /** The image a core component asks for under each name: of a repeated name, the one listed last. */
  function LastImages(listed: seq<Container>): map<string, string> {
    if listed == [] then map[]
    else LastImages(listed[..|listed| - 1])[listed[|listed| - 1].name := listed[|listed| - 1].image]
  }

  method ConvertContainerSliceToMap(listed: seq<Container>) returns (m: map<string, string>)
    ensures m == LastImages(listed)
  {
    m := map[];
    for i := 0 to |listed|
      invariant m == LastImages(listed[..i])
    {
      assert listed[..i + 1][..i] == listed[..i];
      m := m[listed[i].name := listed[i].image];
    }
    assert listed[..|listed|] == listed;
  }

  /** The map holds exactly the listed names, each with the image listed last for it. */
  lemma {:induction false} LastImageWins(listed: seq<Container>, i: nat)
    requires i < |listed|
    requires forall j | i < j < |listed| :: listed[j].name != listed[i].name
    ensures LastImages(listed).Keys == set c | c in listed :: c.name
    ensures LastImages(listed)[listed[i].name] == listed[i].image
  {
    LastImagesKeys(listed);
    if i < |listed| - 1 {
      LastImageWins(listed[..|listed| - 1], i);
    }
  }

  lemma {:induction false} LastImagesKeys(listed: seq<Container>)
    ensures LastImages(listed).Keys == set c | c in listed :: c.name
  {
    if listed != [] {
      var front := listed[..|listed| - 1];
      LastImagesKeys(front);
      assert listed == front + [listed[|listed| - 1]];
    }
  }

  /** The lenient match, spelled out: the wanted image occurs somewhere in the actual one. */
  lemma MatchMeans(actual: string, wanted: string)
    ensures ImageMatches(actual, wanted, true) <==> actual == wanted
    ensures ImageMatches(actual, wanted, false) <==> exists i | 0 <= i <= |actual| :: wanted <= actual[i..]
  {
    SubstringMeansOccurs(actual, wanted);
  }

  /** No later entry of the list has this name. */
  predicate LastOfName(listed: seq<Container>, i: nat)
    requires i < |listed|
  {
    forall j | i < j < |listed| :: listed[j].name != listed[i].name
  }

  /** Every name listed has a container, and the image listed last for it occurs in the container's image. */
  ghost predicate ListedPresent(listed: seq<Container>, containers: seq<Container>) {
    forall i | 0 <= i < |listed| && LastOfName(listed, i) ::
      && (exists k :: 0 <= k < |containers| && containers[k].name == listed[i].name)
      && forall k | 0 <= k < |containers| && containers[k].name == listed[i].name ::
           Occurs(containers[k].image, listed[i].image)
  }

  lemma {:induction false} LastPlace(listed: seq<Container>, name: string) returns (i: nat)
    requires exists c :: c in listed && c.name == name
    ensures i < |listed| && listed[i].name == name && LastOfName(listed, i)
  {
    var n := |listed| - 1;
    if listed[n].name == name {
      i := n;
    } else {
      assert listed == listed[..n] + [listed[n]];
      i := LastPlace(listed[..n], name);
    }
  }

  /** For containers with unique names, the lenient check against a component's list, without the map in between. */
  lemma ListedExactly(listed: seq<Container>, containers: seq<Container>)
    requires UniqueNames(containers)
    ensures Answer(containers, LastImages(listed), false) <==> ListedPresent(listed, containers)
  {
    CheckIsExact(containers, LastImages(listed), false);
    if AllPresent(containers, LastImages(listed), false) { PresentMeansListed(listed, containers); }
    if ListedPresent(listed, containers) { ListedMeansPresent(listed, containers); }
  }

  lemma PresentMeansListed(listed: seq<Container>, containers: seq<Container>)
    requires AllPresent(containers, LastImages(listed), false)
    ensures ListedPresent(listed, containers)
  {
    forall i | 0 <= i < |listed| && LastOfName(listed, i)
      ensures exists k :: 0 <= k < |containers| && containers[k].name == listed[i].name
      ensures forall k | 0 <= k < |containers| && containers[k].name == listed[i].name ::
        Occurs(containers[k].image, listed[i].image)
    {
      LastImageWins(listed, i);
      var c :| c in containers && c.name == listed[i].name;
      var k :| 0 <= k < |containers| && containers[k] == c;
      forall k | 0 <= k < |containers| && containers[k].name == listed[i].name
        ensures Occurs(containers[k].image, listed[i].image)
      {
        assert containers[k] in containers && ImageMatches(containers[k].image, listed[i].image, false);
        SubstringMeansOccurs(containers[k].image, listed[i].image);
      }
    }
  }

  lemma ListedMeansPresent(listed: seq<Container>, containers: seq<Container>)
    requires ListedPresent(listed, containers)
    ensures AllPresent(containers, LastImages(listed), false)
  {
    var wanted := LastImages(listed);
    LastImagesKeys(listed);
    forall n | n in wanted ensures exists c :: c in containers && c.name == n {
      var i := LastPlace(listed, n);
      var k :| 0 <= k < |containers| && containers[k].name == listed[i].name;
      assert containers[k] in containers;
    }
    forall c | c in containers && c.name in wanted ensures ImageMatches(c.image, wanted[c.name], false) {
      var i := LastPlace(listed, c.name);
      LastImageWins(listed, i);
      var k :| 0 <= k < |containers| && containers[k] == c;
      SubstringMeansOccurs(c.image, listed[i].image);
    }
  }
}
