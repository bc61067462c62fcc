/** The cluster as the client adapter sees it. Every call may fail while the API is unhealthy,
    and a call that fails changes nothing. */
module Cluster {
  import opened Names
  import opened HashData
  import opened ConfigMaps

  /** Whether the next call fails. */
  method CallFails(healthy: bool) returns (failed: bool)
    ensures healthy ==> !failed
  {
    if healthy {
      failed := false;
    } else {
      failed := *;
    }
  }

  class Client {
    var objects: Objects
    /** The namespaces that match the selector, in the order the API lists them. */
    var selected: seq<string>
    var healthy: bool
    /** Every object written by an upsert so far, once for each write. */
    ghost var upserted: seq<NamespacedName>

    constructor (objects: Objects, selected: seq<string>, healthy: bool)
      ensures this.objects == objects && this.selected == selected && this.healthy == healthy
      ensures upserted == []
    {
      this.objects := objects;
      this.selected := selected;
      this.healthy := healthy;
      upserted := [];
    }

    /** A missing source is an error, like any other failed read. */
    method GetSourceConfigMap(source: NamespacedName) returns (data: Option<StringMap>)
      ensures data.Some? ==> source in objects && data.value == objects[source].data
      ensures healthy && source in objects ==> data.Some?
    {
      var failed := CallFails(healthy);
      if failed || source !in objects {
        return None;
      }
      data := Some(objects[source].data);
    }

    method ListNamespacesBySelector() returns (namespaces: Option<seq<string>>)
      ensures namespaces.Some? ==> namespaces.value == selected
      ensures healthy ==> namespaces.Some?
    {
      var failed := CallFails(healthy);
      namespaces := if failed then None else Some(selected);
    }

    /** A missing target is not an error. */
    method GetTargetConfigMap(k: NamespacedName) returns (ok: bool, target: Option<ConfigMap>)
      ensures ok ==> target == Lookup(objects, k)
      ensures healthy ==> ok
    {
      var failed := CallFails(healthy);
      if failed {
        return false, None;
      }
      return true, Lookup(objects, k);
    }

    method UpsertConfigMap(k: NamespacedName, data: StringMap, labels: StringMap, annotations: StringMap)
      returns (ok: bool)
      modifies this`objects, this`upserted
      ensures upserted == if ok then old(upserted) + [k] else old(upserted)
      ensures objects == if ok then old(objects)[k := ConfigMap(data, labels, annotations)] else old(objects)
      ensures healthy ==> ok
    {
      var failed := CallFails(healthy);
      if failed {
        return false;
      }
      var configMap := ConfigMap(data, labels, annotations);
      if k in objects {
        var newLabels := Refill(objects[k].labels, labels);
        var newAnnotations := Refill(objects[k].annotations, annotations);
        configMap := ConfigMap(data, newLabels, newAnnotations);
      }
      failed := CallFails(healthy);
      if failed {
        return false;
      }
      objects := objects[k := configMap];
      upserted := upserted + [k];
      ok := true;
    }

    /** Clears a map entry by entry, then copies the wanted entries in. */
    static method Refill(existing: StringMap, wanted: StringMap) returns (m: StringMap)
      ensures m == wanted
    {
      m := existing;
      while m != map[]
        decreases m.Keys
      {
        var key :| key in m;
        m := m - {key};
      }
      var todo := wanted.Keys;
      while todo != {}
        invariant todo <= wanted.Keys
        invariant m == Restrict(wanted, wanted.Keys - todo)
        decreases todo
      {
        var key :| key in todo;
        todo := todo - {key};
        m := m[key := wanted[key]];
      }
    }

    /** Lists by the managed label, then filters by name and source annotation. */
    method ListManagedTargetNamespaces(source: NamespacedName) returns (namespaces: Option<seq<string>>)
      ensures namespaces.Some? ==>
        NoDuplicates(namespaces.value) && Elements(namespaces.value) == ListedNamespaces(objects, source)
      ensures healthy ==> namespaces.Some?
    {
      var failed := CallFails(healthy);
      if failed {
        return None;
      }
      var r: seq<string> := [];
      var todo := objects.Keys;
      while todo != {}
        invariant todo <= objects.Keys
        invariant NoDuplicates(r)
        invariant forall ns :: ns in r <==>
          NamespacedName(ns, source.name) !in todo && ListedAt(objects, source, ns)
        decreases todo
      {
        var k :| k in todo;
        todo := todo - {k};
        if Read(objects[k].labels, MANAGED_LABEL) == "true" {
          if k.name == source.name && Read(objects[k].annotations, SOURCE_ANNOTATION) == SourceId(source) {
            assert NamespacedName(k.ns, source.name) == k;
            r := r + [k.ns];
          }
        }
      }
      ListedMembers(objects, source);
      namespaces := Some(r);
    }

    /** Deleting an object that is not there succeeds. */
    method DeleteConfigMap(k: NamespacedName) returns (ok: bool)
      modifies this`objects
      ensures objects == if ok then old(objects) - {k} else old(objects)
      ensures healthy ==> ok
    {
      var failed := CallFails(healthy);
      if failed {
        return false;
      }
      objects := objects - {k};
      ok := true;
    }

    /** Updating the metadata of an object that is not there fails. */
    method UpdateConfigMapMetadata(k: NamespacedName, labels: StringMap, annotations: StringMap) returns (ok: bool)
      modifies this`objects
      ensures ok ==> k in old(objects) && objects == old(objects)[k := ConfigMap(old(objects)[k].data, labels, annotations)]
      ensures !ok ==> objects == old(objects)
      ensures healthy && k in old(objects) ==> ok
    {
      var failed := CallFails(healthy);
      if failed || k !in objects {
        return false;
      }
      failed := CallFails(healthy);
      if failed {
        return false;
      }
      objects := objects[k := ConfigMap(objects[k].data, labels, annotations)];
      ok := true;
    }
  }
}
