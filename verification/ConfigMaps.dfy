/** ConfigMaps in the cluster, and what one sync pass and one cleanup pass do to them. */
module ConfigMaps {
  import opened Names
  import opened HashData

  const MANAGED_LABEL := "configpropagator.platform.example.com/managed"
  const SOURCE_ANNOTATION := "configpropagator.platform.example.com/source"
  const HASH_ANNOTATION := "configpropagator.platform.example.com/hash"

  datatype ConfigMap = ConfigMap(data: StringMap, labels: StringMap, annotations: StringMap)

  type Objects = map<NamespacedName, ConfigMap>

  datatype ConflictPolicy = Overwrite | Skip

  function Lookup(objects: Objects, k: NamespacedName): Option<ConfigMap> {
    if k in objects then Some(objects[k]) else None
  }

  lemma SameObjects(a: Objects, b: Objects)
    requires forall k :: Lookup(a, k) == Lookup(b, k)
    ensures a == b
  {
    assert forall k :: k in a <==> Lookup(a, k).Some?;
    assert forall k :: k in b <==> Lookup(b, k).Some?;
    forall k | k in a ensures a[k] == b[k] {
      assert Lookup(a, k) == Lookup(b, k);
    }
  }

  /** Reading a missing key of a Go map yields the empty string. */
  function Read(m: StringMap, key: string): string {
    if key in m then m[key] else ""
  }

  /** The "namespace/name" form of a source reference. */
  function SourceId(source: NamespacedName): string {
    source.ns + "/" + source.name
  }

  /** The namespace is what comes before the first slash, the name what follows, so the form tells
      sources apart: namespaces contain no slash. */
  lemma SourceIdParts(a: NamespacedName, b: NamespacedName)
    requires '/' !in a.ns && '/' !in b.ns
    ensures UpTo('/', SourceId(a)) == a.ns && SourceId(a) == a.ns + "/" + a.name
    ensures SourceId(a) == SourceId(b) <==> a == b
  {
    assert "/" == ['/'];
    UpToFinds('/', a.ns, a.name);
    UpToFinds('/', b.ns, b.name);
    assert SourceId(a)[|a.ns| + 1..] == a.name;
    assert SourceId(b)[|b.ns| + 1..] == b.name;
  }

  /** Sources of one name in different namespaces have different identifiers. */
  lemma SourceIdsDiffer(a: NamespacedName, b: NamespacedName)
    requires a.name == b.name && a.ns != b.ns
    ensures SourceId(a) != SourceId(b)
  {
    assert SourceId(a)[..|a.ns|] == a.ns;
    assert SourceId(b)[..|b.ns|] == b.ns;
    assert |SourceId(a)| == |a.ns| + 1 + |a.name|;
    assert |SourceId(b)| == |b.ns| + 1 + |b.name|;
  }

  // ---------------------------------------------------------------------------
  // Two notions of a managed target
  // ---------------------------------------------------------------------------

  /** Sync treats a target as managed if it carries either marker. */
  predicate Managed(o: ConfigMap, source: NamespacedName) {
    || Read(o.labels, MANAGED_LABEL) == "true"
    || Read(o.annotations, SOURCE_ANNOTATION) == SourceId(source)
  }

  /** Cleanup finds a target only if it carries both. */
  predicate Listed(o: ConfigMap, source: NamespacedName) {
    && Read(o.labels, MANAGED_LABEL) == "true"
    && Read(o.annotations, SOURCE_ANNOTATION) == SourceId(source)
  }

  function ListedNamespaces(objects: Objects, source: NamespacedName): set<string> {
    set k | k in objects && k.name == source.name && Listed(objects[k], source) :: k.ns
  }

  predicate ListedAt(objects: Objects, source: NamespacedName, ns: string) {
    var k := NamespacedName(ns, source.name);
    k in objects && Listed(objects[k], source)
  }

  lemma ListedMembers(objects: Objects, source: NamespacedName)
    ensures forall ns :: ns in ListedNamespaces(objects, source) <==> ListedAt(objects, source, ns)
  {
  }

  // ---------------------------------------------------------------------------
  // Sync
  // ---------------------------------------------------------------------------

  /** What one sync pass wants every planned target to hold. */
  datatype Desired = Desired(source: NamespacedName, data: StringMap, hash: string, policy: ConflictPolicy)

  datatype Verdict = Conflict | UpToDate | Write

  function Classify(o: Option<ConfigMap>, d: Desired): Verdict {
    if o.None? then Write
    else if !Managed(o.value, d.source) && d.policy == Skip then Conflict
    else if Managed(o.value, d.source) && Read(o.value.annotations, HASH_ANNOTATION) == d.hash then UpToDate
    else Write
  }

  function DesiredLabels(): StringMap {
    map[MANAGED_LABEL := "true"]
  }

  function DesiredAnnotations(d: Desired): StringMap {
    map[SOURCE_ANNOTATION := SourceId(d.source), HASH_ANNOTATION := d.hash]
  }

  function Written(d: Desired): ConfigMap {
    ConfigMap(d.data, DesiredLabels(), DesiredAnnotations(d))
  }

  /** A copy, entry by entry: the data, one label and two annotations. */
  lemma WrittenEntries(d: Desired)
    ensures var o := Written(d);
            && o.data == d.data
            && o.labels == map["configpropagator.platform.example.com/managed" := "true"]
            && |o.annotations| == 2
            && Read(o.annotations, "configpropagator.platform.example.com/source") == d.source.ns + "/" + d.source.name
            && Read(o.annotations, "configpropagator.platform.example.com/hash") == d.hash
  {
    WrittenMarkers(d);
    assert Written(d).annotations.Keys == {SOURCE_ANNOTATION, HASH_ANNOTATION};
    assert |SOURCE_ANNOTATION| != |HASH_ANNOTATION|;
  }

  /** A planned target after its turn in the sync loop. */
  function Synced(o: Option<ConfigMap>, d: Desired): Option<ConfigMap> {
    if Classify(o, d) == Write then Some(Written(d)) else o
  }

  predicate IsTarget(k: NamespacedName, d: Desired, namespaces: set<string>) {
    k.name == d.source.name && k.ns in namespaces
  }

  function SyncedAt(objects: Objects, d: Desired, namespaces: set<string>, k: NamespacedName): Option<ConfigMap> {
    if IsTarget(k, d, namespaces) then Synced(Lookup(objects, k), d) else Lookup(objects, k)
  }

  /** The cluster after syncing a set of namespaces. */
  function SyncObjects(objects: Objects, d: Desired, namespaces: set<string>): Objects {
    var targets := set ns | ns in namespaces :: NamespacedName(ns, d.source.name);
    map k | k in objects.Keys + targets :: SyncedAt(objects, d, namespaces, k).value
  }

  lemma SyncPointwise(objects: Objects, d: Desired, namespaces: set<string>)
    ensures forall k :: Lookup(SyncObjects(objects, d, namespaces), k) == SyncedAt(objects, d, namespaces, k)
  {
  }

  /** The source annotation and the hash annotation do not shadow one another. */
  lemma WrittenMarkers(d: Desired)
    ensures Read(Written(d).annotations, SOURCE_ANNOTATION) == SourceId(d.source)
    ensures Read(Written(d).annotations, HASH_ANNOTATION) == d.hash
    ensures Listed(Written(d), d.source) && Managed(Written(d), d.source)
    ensures Classify(Some(Written(d)), d) == UpToDate
  {
  }

  /** Syncing a target a second time changes nothing, and turns nothing into a conflict. */
  lemma SyncedTwice(o: Option<ConfigMap>, d: Desired)
    ensures Synced(Synced(o, d), d) == Synced(o, d)
    ensures Classify(Synced(o, d), d) == if Classify(o, d) == Conflict then Conflict else UpToDate
  {
  }

  /** Syncing in two parts is syncing the union. */
  lemma SyncUnion(objects: Objects, d: Desired, first: set<string>, second: set<string>)
    ensures SyncObjects(SyncObjects(objects, d, first), d, second) == SyncObjects(objects, d, first + second)
  {
    var before := SyncObjects(objects, d, first);
    SyncPointwise(objects, d, first);
    SyncPointwise(objects, d, first + second);
    SyncPointwise(before, d, second);
    forall k ensures Lookup(SyncObjects(before, d, second), k) == Lookup(SyncObjects(objects, d, first + second), k) {
      SyncedTwice(Lookup(objects, k), d);
    }
    SameObjects(SyncObjects(before, d, second), SyncObjects(objects, d, first + second));
  }

  // ---------------------------------------------------------------------------
  // Cleanup
  // ---------------------------------------------------------------------------

  /** Detaching removes the managed markers and nothing else. */
  function Detached(o: ConfigMap): ConfigMap {
    ConfigMap(o.data, o.labels - {MANAGED_LABEL}, o.annotations - {SOURCE_ANNOTATION} - {HASH_ANNOTATION})
  }

  function Cleaned(o: Option<ConfigMap>, prune: bool): Option<ConfigMap> {
    if o.None? || prune then None else Some(Detached(o.value))
  }

  function CleanedAt(objects: Objects, name: string, prune: bool, namespaces: set<string>, k: NamespacedName)
    : Option<ConfigMap>
  {
    if k.name == name && k.ns in namespaces then Cleaned(Lookup(objects, k), prune) else Lookup(objects, k)
  }

  /** The cluster after cleaning a set of namespaces of this source's targets. */
  function CleanObjects(objects: Objects, name: string, prune: bool, namespaces: set<string>): Objects {
    map k | k in objects && CleanedAt(objects, name, prune, namespaces, k).Some? ::
      CleanedAt(objects, name, prune, namespaces, k).value
  }

  lemma CleanPointwise(objects: Objects, name: string, prune: bool, namespaces: set<string>)
    ensures forall k :: Lookup(CleanObjects(objects, name, prune, namespaces), k)
                        == CleanedAt(objects, name, prune, namespaces, k)
  {
  }

  /** A detached target carries neither marker. */
  lemma DetachedIsUnmanaged(o: ConfigMap, source: NamespacedName)
    ensures !Managed(Detached(o), source) && !Listed(Detached(o), source)
  {
  }

  /** `after` is `before` with exactly the given keys taken out. */
  ghost predicate OnlyLoses(before: StringMap, after: StringMap, keys: set<string>) {
    && (forall x :: x in after <==> x in before && x !in keys)
    && (forall x :: x in after ==> after[x] == before[x])
  }

  /** What becomes of a target that is cleaned up: it is gone, or keeps its data and every label and
      annotation except the markers. */
  ghost predicate CleanedUp(o: ConfigMap, after: Option<ConfigMap>, prune: bool) {
    if prune then after == None else
      && after.Some? && after.value.data == o.data
      && OnlyLoses(o.labels, after.value.labels, {MANAGED_LABEL})
      && OnlyLoses(o.annotations, after.value.annotations, {SOURCE_ANNOTATION, HASH_ANNOTATION})
  }

  /** Everything that was listed is cleaned up, and nothing is listed any more. */
  ghost predicate AllCleanedUp(before: Objects, after: Objects, source: NamespacedName, prune: bool) {
    && ListedNamespaces(after, source) == {}
    && forall ns :: ListedAt(before, source, ns) ==>
         var k := NamespacedName(ns, source.name);
         CleanedUp(before[k], Lookup(after, k), prune)
  }

  /** The exact effect of a whole cleanup: what is listed afterwards is what was listed and is
      still selected; deselected targets are cleaned up; every other object is as it was. */
  lemma CleanupEffect(objects: Objects, source: NamespacedName, prune: bool, selected: set<string>)
    ensures var deselected := ListedNamespaces(objects, source) - selected;
            var r := CleanObjects(objects, source.name, prune, deselected);
            && ListedNamespaces(r, source) == ListedNamespaces(objects, source) * selected
            && (forall k: NamespacedName :: !(k.name == source.name && k.ns in deselected) ==>
                  Lookup(r, k) == Lookup(objects, k))
            && (forall ns :: ListedAt(objects, source, ns) && ns !in selected ==>
                  var k := NamespacedName(ns, source.name);
                  CleanedUp(objects[k], Lookup(r, k), prune))
  {
    var deselected := ListedNamespaces(objects, source) - selected;
    var r := CleanObjects(objects, source.name, prune, deselected);
    ListedAfterClean(objects, source, prune, deselected);
    ListedMembers(objects, source);
    CleanPointwise(objects, source.name, prune, deselected);
    forall ns | ListedAt(objects, source, ns) && ns !in selected
      ensures var k := NamespacedName(ns, source.name);
              CleanedUp(objects[k], Lookup(r, k), prune)
    {
      var k := NamespacedName(ns, source.name);
      assert Lookup(r, k) == CleanedAt(objects, source.name, prune, deselected, k);
    }
  }

  lemma ListedAfterClean(objects: Objects, source: NamespacedName, prune: bool, namespaces: set<string>)
    ensures ListedNamespaces(CleanObjects(objects, source.name, prune, namespaces), source)
            == ListedNamespaces(objects, source) - namespaces
  {
  }

  lemma ListedAfterSync(objects: Objects, d: Desired, namespaces: set<string>)
    ensures ListedNamespaces(SyncObjects(objects, d, namespaces), d.source) - namespaces
            == ListedNamespaces(objects, d.source) - namespaces
  {
  }

  // ---------------------------------------------------------------------------
  // Managed targets and listed targets
  // ---------------------------------------------------------------------------

  predicate ManagedAt(objects: Objects, source: NamespacedName, ns: string) {
    var k := NamespacedName(ns, source.name);
    k in objects && Managed(objects[k], source)
  }

  /** Cleanup can find the target if sync takes it for managed. */
  predicate PairedAt(objects: Objects, source: NamespacedName, ns: string) {
    ManagedAt(objects, source, ns) ==> ListedAt(objects, source, ns)
  }

  /** Syncing writes both markers and cleaning removes both, so neither parts them. */
  lemma PassKeepsPairs(objects: Objects, d: Desired, synced: set<string>, prune: bool, cleaned: set<string>, ns: string)
    requires PairedAt(objects, d.source, ns)
    ensures PairedAt(CleanObjects(SyncObjects(objects, d, synced), d.source.name, prune, cleaned), d.source, ns)
  {
    var k := NamespacedName(ns, d.source.name);
    var middle := SyncObjects(objects, d, synced);
    SyncPointwise(objects, d, synced);
    assert Lookup(middle, k) == SyncedAt(objects, d, synced, k);
    WrittenMarkers(d);
    CleaningKeepsPairs(middle, d.source, prune, cleaned, ns);
  }

  lemma CleaningKeepsPairs(objects: Objects, source: NamespacedName, prune: bool, cleaned: set<string>, ns: string)
    requires PairedAt(objects, source, ns)
    ensures PairedAt(CleanObjects(objects, source.name, prune, cleaned), source, ns)
  {
    var k := NamespacedName(ns, source.name);
    CleanPointwise(objects, source.name, prune, cleaned);
    assert Lookup(CleanObjects(objects, source.name, prune, cleaned), k)
        == CleanedAt(objects, source.name, prune, cleaned, k);
    if k in objects {
      DetachedIsUnmanaged(objects[k], source);
    }
  }

  /** After a complete cleanup exactly those targets are still managed that carry one marker. */
  lemma ManagedAfterCleanup(objects: Objects, source: NamespacedName, prune: bool, ns: string)
    ensures ManagedAt(CleanObjects(objects, source.name, prune, ListedNamespaces(objects, source)), source, ns)
            <==> ManagedAt(objects, source, ns) && !ListedAt(objects, source, ns)
  {
    var k := NamespacedName(ns, source.name);
    var listed := ListedNamespaces(objects, source);
    ListedMembers(objects, source);
    CleanPointwise(objects, source.name, prune, listed);
    assert Lookup(CleanObjects(objects, source.name, prune, listed), k)
        == CleanedAt(objects, source.name, prune, listed, k);
    if k in objects {
      DetachedIsUnmanaged(objects[k], source);
    }
  }

  // ---------------------------------------------------------------------------
  // A sync pass followed by a whole cleanup pass
  // ---------------------------------------------------------------------------

  /** Syncs `planned`, then cleans everything listed outside `selected`. */
  function Tidy(objects: Objects, d: Desired, prune: bool, planned: set<string>, selected: set<string>): Objects {
    var synced := SyncObjects(objects, d, planned);
    CleanObjects(synced, d.source.name, prune, ListedNamespaces(synced, d.source) - selected)
  }

  lemma TidyAt(objects: Objects, d: Desired, prune: bool, planned: set<string>, selected: set<string>, k: NamespacedName)
    requires planned <= selected
    ensures Lookup(Tidy(objects, d, prune, planned, selected), k) ==
      var o := Lookup(objects, k);
      if k.name != d.source.name then o
      else if k.ns in planned then Synced(o, d)
      else if k.ns in selected || o.None? || !Listed(o.value, d.source) then o
      else Cleaned(o, prune)
  {
  }

  /** Batches compose: two passes over two sets are one pass over both. */
  lemma TidyTwice(objects: Objects, d: Desired, prune: bool, first: set<string>, second: set<string>, selected: set<string>)
    requires first <= selected && second <= selected
    ensures Tidy(Tidy(objects, d, prune, first, selected), d, prune, second, selected)
            == Tidy(objects, d, prune, first + second, selected)
  {
    var one := Tidy(objects, d, prune, first, selected);
    forall k ensures Lookup(Tidy(one, d, prune, second, selected), k)
                     == Lookup(Tidy(objects, d, prune, first + second, selected), k)
    {
      TidyAt(objects, d, prune, first, selected, k);
      TidyAt(one, d, prune, second, selected, k);
      TidyAt(objects, d, prune, first + second, selected, k);
      SyncedTwice(Lookup(objects, k), d);
      if k in objects {
        DetachedIsUnmanaged(objects[k], d.source);
      }
    }
    SameObjects(Tidy(one, d, prune, second, selected), Tidy(objects, d, prune, first + second, selected));
  }
}
