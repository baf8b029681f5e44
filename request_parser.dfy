/**
 * The cluster and instance-template definitions of the HTTP API
 * (utils/parse_requests.py). The required-key checks and the label
 * conversion are pure functions; the TemplateParams object is filled one
 * attribute group at a time by methods proved against those functions.
 */
module RequestParser {
  import opened Common
  import opened JsonValue
  import opened Entities

  const StorageMissing := "Key 'storage' not found in the json object. The json is mal formed"
  const NameMissing := "Key 'name' not found in the json object. The json is mal formed"
  const SizeMissing := "Cluster size is missing from the json object"
  const RegionMissing := "Cluster region is missing from the json object"
  const BucketMissing := "Cluster storage bucket is missing from the json object"
  const TemplateUnspecified := "Instance Template params not specified"
  const LabelsNotArray := "Cluster labels should be an array"
  const LabelWithoutKeyValue := "Labels should have a key and a value"

  /** `t[key]` when `t` is a dictionary holding `key`, else the default. */
  function Lookup(t: Json, key: string, default: Json): Json {
    if t.JObj? && key in t.fields then t.fields[key] else default
  }

  /** A dictionary holding `key` with a value other than None. */
  predicate Present(d: Json, key: string) {
    d.JObj? && key in d.fields && d.fields[key] != JNull
  }

  /** What the presence checks demand of a cluster dictionary. */
  predicate WellFormedCluster(d: Json) {
    d.JObj? && "storage" in d.fields && "name" in d.fields &&
    Present(d, "size") && Present(d, "region") && Present(d.fields["storage"], "bucket")
  }

  /** The presence checks, in their order: storage, name, size, region, storage.bucket. */
  function CheckClusterDict(d: Json): (r: Result<Unit>)
    ensures r.Ok? <==> WellFormedCluster(d)
    ensures d.JObj? && "storage" !in d.fields ==> r == Err(InvalidJson(StorageMissing))
    ensures d.JObj? && "storage" in d.fields && "name" !in d.fields ==> r == Err(InvalidJson(NameMissing))
    ensures (d.JObj? && "storage" in d.fields && "name" in d.fields && "size" in d.fields && d.fields["size"] == JNull)
      ==> r == Err(InvalidJson(SizeMissing))
    ensures (d.JObj? && "storage" in d.fields && "name" in d.fields && Present(d, "size") &&
             "region" in d.fields && d.fields["region"] == JNull)
      ==> r == Err(InvalidJson(RegionMissing))
  {
    if !Iterable(d) then Err(NotIterable(d))
    else if !In("storage", d) then Err(InvalidJson(StorageMissing))
    else if !In("name", d) then Err(InvalidJson(NameMissing)) else
    var size :- Index(d, "size");
    if IsNone(size) then Err(InvalidJson(SizeMissing)) else
    var region :- Index(d, "region");
    if IsNone(region) then Err(InvalidJson(RegionMissing)) else
    var bucket :- Index(d.fields["storage"], "bucket");
    if IsNone(bucket) then Err(InvalidJson(BucketMissing)) else Ok(Unit)
  }

  /** The template's name: its own 'name' key, else "template-" and the cluster name. */
  function TemplateNameFor(dict: Json, clusterName: Json): (r: Result<Json>)
    ensures IsNone(dict) && IsNone(clusterName) ==> r == Err(InvalidJson(TemplateUnspecified))
    ensures dict.JObj? && "name" in dict.fields ==> r == Ok(dict.fields["name"])
    ensures dict.JObj? && "name" !in dict.fields ==> r == Ok(JStr("template-" + Show(clusterName)))
    ensures IsNone(dict) && !IsNone(clusterName) ==> r == Ok(JStr("template-" + Show(clusterName)))
  {
    if IsNone(dict) && IsNone(clusterName) then Err(InvalidJson(TemplateUnspecified))
    else if !IsNone(dict) then
      var hasName :- Contains(dict, "name");
      if hasName then Index(dict, "name") else Ok(JStr("template-" + Show(clusterName)))
    else Ok(JStr("template-" + Show(clusterName)))
  }

  /** machine_type, image_project and image_family, each only if present. */
  function WithImageFields(f: TemplateFields, t: Json): Result<TemplateFields> {
    if !Iterable(t) then Err(NotIterable(t)) else
    var machineType :- if In("machine_type", t) then Index(t, "machine_type") else Ok(f.machineType);
    var imageProject :- if In("image_project", t) then Index(t, "image_project") else Ok(f.imageProject);
    var imageFamily :- if In("image_family", t) then Index(t, "image_family") else Ok(f.imageFamily);
    Ok(f.(machineType := machineType, imageProject := imageProject, imageFamily := imageFamily))
  }

  function WithRegion(f: TemplateFields, t: Json): Result<TemplateFields> {
    var hasRegion :- Contains(t, "region");
    if hasRegion then
      var region :- Index(t, "region");
      Ok(f.(region := Some(region)))
    else Ok(f)
  }

  /** The one disk a template gets when it names none: 10 GB pd-standard, boot. */
  const DefaultDisks := JList([JObj(map["size" := JInt(10), "type" := JStr("pd-standard"), "boot" := JBool(true)])])

  function WithDisks(f: TemplateFields, t: Json): Result<TemplateFields> {
    var hasDisks :- Contains(t, "disks");
    var value :- if hasDisks then Index(t, "disks") else Ok(DefaultDisks);
    if !value.JList? then Err(Exit(0)) else
    var disks :- DisksOutcome(value.items);
    Ok(f.(disks := Some(disks)))
  }

  /** The check loop over labels: each must hold both 'key' and 'value'. */
  function CheckLabels(labels: seq<Json>): Result<Unit> {
    if labels == [] then Ok(Unit)
    else
      if !Iterable(labels[0]) then Err(NotIterable(labels[0]))
      else if !In("key", labels[0]) || !In("value", labels[0]) then Err(InvalidJson(LabelWithoutKeyValue))
      else CheckLabels(labels[1..])
  }

  /** One `(label['key'], label['value'])` pair as `dict()` receives it. */
  function LabelPair(entry: Json): Result<(Json, Json)> {
    var key :- Index(entry, "key");
    var value :- Index(entry, "value");
    if !Hashable(key) then Err(TypeError("unhashable type: '" + TypeName(key) + "'"))
    else Ok((key, value))
  }

  /** `dict(map(lambda label: (label['key'], label['value']), labels))`. */
  function BuildLabels(labels: seq<Json>): Result<map<Json, Json>> {
    if labels == [] then Ok(map[])
    else
      var m :- BuildLabels(labels[..|labels| - 1]);
      var pair :- LabelPair(labels[|labels| - 1]);
      Ok(m[pair.0 := pair.1])
  }

  function WithLabels(f: TemplateFields, t: Json): Result<TemplateFields> {
    var hasLabels :- Contains(t, "labels");
    if !hasLabels then Ok(f) else
    var labels :- Index(t, "labels");
    if !labels.JList? then Err(InvalidJson(LabelsNotArray)) else
    var _ :- CheckLabels(labels.items);
    var m :- BuildLabels(labels.items);
    Ok(f.(labels := m))
  }

  function WithScriptUrls(f: TemplateFields, t: Json): Result<TemplateFields> {
    if !Iterable(t) then Err(NotIterable(t)) else
    var startup :- if In("startup_script_url", t) then Index(t, "startup_script_url") else Ok(JNull);
    var shutdown :- if In("shutdown_script_url", t) then Index(t, "shutdown_script_url") else Ok(JNull);
    Ok(f.(startupScriptUrl := if In("startup_script_url", t) then Some(startup) else f.startupScriptUrl,
          shutdownScriptUrl := if In("shutdown_script_url", t) then Some(shutdown) else f.shutdownScriptUrl))
  }

  /** parse_instance_template: the name, then (for a truthy dictionary) each attribute group in order. */
  function TemplateFrom(dict: Json, clusterName: Json): Result<TemplateFields> {
    var name :- TemplateNameFor(dict, clusterName);
    var f := DefaultTemplate(name);
    if !Truthy(dict) then Ok(f) else
    var f :- WithImageFields(f, dict);
    var f :- WithRegion(f, dict);
    var f :- WithDisks(f, dict);
    var f :- WithLabels(f, dict);
    WithScriptUrls(f, dict)
  }

  /** The couchbase block: absent gives None; present overrides only the keys it holds. */
  function CouchbaseFrom(cluster: Json): (r: Result<Option<CouchbaseParams>>)
    ensures cluster.JObj? && "couchbase" !in cluster.fields ==> r == Ok(None)
    ensures cluster.JObj? && "couchbase" in cluster.fields && cluster.fields["couchbase"].JObj? ==>
      var c := cluster.fields["couchbase"];
      r == Ok(Some(CouchbaseParams(Lookup(c, "username", JStr("username")), Lookup(c, "password", JStr("password")))))
  {
    var hasCouchbase :- Contains(cluster, "couchbase");
    if !hasCouchbase then Ok(None) else
    var c :- Index(cluster, "couchbase");
    if !Iterable(c) then Err(NotIterable(c)) else
    var username :- if In("username", c) then Index(c, "username") else Ok(JStr("username"));
    var password :- if In("password", c) then Index(c, "password") else Ok(JStr("password"));
    Ok(Some(CouchbaseParams(username, password)))
  }

  /** parse_cluster_def_from_json, read as a value. */
  function ClusterFrom(d: Json): Result<ClusterDef> {
    var _ :- CheckClusterDict(d);
    var name := d.fields["name"];
    var storageDict := d.fields["storage"];
    var storageType := Lookup(storageDict, "type", JStr("gcp_storage"));
    var storage := StorageParams(storageDict.fields["bucket"], storageType);
    var template :- if "template" in d.fields then TemplateFrom(d.fields["template"], name)
                    else Ok(DefaultTemplate(JStr("template-" + Show(name))));
    var couchbase :- CouchbaseFrom(d);
    Ok(ClusterDef(name, d.fields["size"], d.fields["region"], storage, template, couchbase))
  }

  // ---------------------------------------------------------------------
  // Properties of the definitions

  /** A template dictionary without 'disks' gets exactly the default boot disk. */
  lemma DefaultDiskWhenAbsent(f: TemplateFields, t: Json)
    requires t.JObj? && "disks" !in t.fields
    ensures WithDisks(f, t) == Ok(f.(disks := Some([DiskParams(JInt(10), JStr("pd-standard"), JBool(true))])))
  {
    var items := DefaultDisks.items;
    assert ParseDisks(items[..0]) == Ok([]);
    assert items[..|items| - 1] == items[..0];
    assert BootCount([DiskParams(JInt(10), JStr("pd-standard"), JBool(true))]) == 1;
  }

  /**
   * An empty template dictionary, or none at all beside a cluster name, gives
   * a template named after the cluster with every default and no disks
   * attribute: the attribute groups are read only from a truthy dictionary.
   */
  lemma EmptyTemplateKeepsDefaults(dict: Json, clusterName: Json)
    requires dict == JObj(map[]) || (IsNone(dict) && !IsNone(clusterName))
    ensures TemplateFrom(dict, clusterName) == Ok(DefaultTemplate(JStr("template-" + Show(clusterName))))
    ensures TemplateFrom(dict, clusterName).value.disks == None
  {
  }

  function OptionalKey(t: Json, key: string): Option<Json>
    requires t.JObj?
  {
    if key in t.fields then Some(t.fields[key]) else None
  }

  /**
   * What an accepted non-empty template dictionary gives: each attribute is
   * the dictionary's value when the key is present and the default
   * otherwise; disks fall back to the single default boot disk, and a
   * present disk list holds at most one boot disk.
   */
  lemma TemplateFromDictionary(dict: Json, clusterName: Json)
    requires dict.JObj? && dict.fields != map[]
    requires TemplateFrom(dict, clusterName).Ok?
    ensures var f := TemplateFrom(dict, clusterName).value;
      && f.name == Lookup(dict, "name", JStr("template-" + Show(clusterName)))
      && f.machineType == Lookup(dict, "machine_type", JStr("e2-micro"))
      && f.imageProject == Lookup(dict, "image_project", JStr("debian-cloud"))
      && f.imageFamily == Lookup(dict, "image_family", JStr("debian-11"))
      && f.region == OptionalKey(dict, "region")
      && f.startupScriptUrl == OptionalKey(dict, "startup_script_url")
      && f.shutdownScriptUrl == OptionalKey(dict, "shutdown_script_url")
    ensures var f := TemplateFrom(dict, clusterName).value;
      "disks" !in dict.fields ==> f.disks == Some([DiskParams(JInt(10), JStr("pd-standard"), JBool(true))])
    ensures var f := TemplateFrom(dict, clusterName).value;
      "disks" in dict.fields ==>
        && dict.fields["disks"].JList?
        && ParseDisks(dict.fields["disks"].items).Ok?
        && f.disks == Some(ParseDisks(dict.fields["disks"].items).value)
        && BootCount(ParseDisks(dict.fields["disks"].items).value) <= 1
    ensures var f := TemplateFrom(dict, clusterName).value;
      && ("labels" !in dict.fields ==> f.labels == map[])
      && ("labels" in dict.fields ==>
            && dict.fields["labels"].JList?
            && BuildLabels(dict.fields["labels"].items).Ok?
            && f.labels == BuildLabels(dict.fields["labels"].items).value)
  {
    var f0 := DefaultTemplate(TemplateNameFor(dict, clusterName).value);
    ImageFieldsOnDict(f0, dict);
    var f1 := WithImageFields(f0, dict).value;
    RegionOnDict(f1, dict);
    var f2 := WithRegion(f1, dict).value;
    assert WithDisks(f2, dict).Ok?;
    DisksOnDict(f2, dict);
    var f3 := WithDisks(f2, dict).value;
    assert WithLabels(f3, dict).Ok?;
    LabelsOnDict(f3, dict);
    var f4 := WithLabels(f3, dict).value;
    ScriptUrlsOnDict(f4, dict);
    assert TemplateFrom(dict, clusterName) == WithScriptUrls(f4, dict);
  }

  /** On a dictionary the image fields take the dictionary's values where present. */
  lemma ImageFieldsOnDict(f: TemplateFields, t: Json)
    requires t.JObj?
    ensures WithImageFields(f, t) == Ok(f.(machineType := Lookup(t, "machine_type", f.machineType),
                                          imageProject := Lookup(t, "image_project", f.imageProject),
                                          imageFamily := Lookup(t, "image_family", f.imageFamily)))
  {
  }

  lemma RegionOnDict(f: TemplateFields, t: Json)
    requires t.JObj?
    ensures WithRegion(f, t) == Ok(if "region" in t.fields then f.(region := Some(t.fields["region"])) else f)
  {
  }

  lemma DisksOnDict(f: TemplateFields, t: Json)
    requires t.JObj? && WithDisks(f, t).Ok?
    ensures WithDisks(f, t).value == f.(disks := WithDisks(f, t).value.disks)
    ensures "disks" !in t.fields ==> WithDisks(f, t).value.disks == Some([DiskParams(JInt(10), JStr("pd-standard"), JBool(true))])
    ensures "disks" in t.fields ==>
      && t.fields["disks"].JList?
      && ParseDisks(t.fields["disks"].items).Ok?
      && WithDisks(f, t).value.disks == Some(ParseDisks(t.fields["disks"].items).value)
      && BootCount(ParseDisks(t.fields["disks"].items).value) <= 1
  {
    if "disks" !in t.fields {
      DefaultDiskWhenAbsent(f, t);
    }
  }

  lemma LabelsOnDict(f: TemplateFields, t: Json)
    requires t.JObj? && WithLabels(f, t).Ok?
    ensures WithLabels(f, t).value == f.(labels := WithLabels(f, t).value.labels)
    ensures "labels" !in t.fields ==> WithLabels(f, t).value == f
    ensures "labels" in t.fields ==>
      && t.fields["labels"].JList?
      && BuildLabels(t.fields["labels"].items).Ok?
      && WithLabels(f, t).value.labels == BuildLabels(t.fields["labels"].items).value
  {
  }

  lemma ScriptUrlsOnDict(f: TemplateFields, t: Json)
    requires t.JObj?
    ensures WithScriptUrls(f, t) == Ok(f.(
      startupScriptUrl := if "startup_script_url" in t.fields then Some(t.fields["startup_script_url"]) else f.startupScriptUrl,
      shutdownScriptUrl := if "shutdown_script_url" in t.fields then Some(t.fields["shutdown_script_url"]) else f.shutdownScriptUrl))
  {
  }

  predicate HasKeyAt(labels: seq<Json>, i: int, key: Json) {
    0 <= i < |labels| && labels[i].JObj? && "key" in labels[i].fields && labels[i].fields["key"] == key
  }

  /** Every label of an accepted list is a dictionary with a hashable key and a value. */
  predicate WellFormedLabel(entry: Json) {
    entry.JObj? && "key" in entry.fields && "value" in entry.fields && Hashable(entry.fields["key"])
  }

  /**
   * The label map holds exactly the keys of the list, and each key maps to
   * the value of its last occurrence.
   */
  lemma {:induction false} LabelsLastWins(labels: seq<Json>)
    requires BuildLabels(labels).Ok?
    ensures forall i :: 0 <= i < |labels| ==> WellFormedLabel(labels[i])
    ensures forall k :: k in BuildLabels(labels).value <==> exists i :: HasKeyAt(labels, i, k)
    ensures forall i, k :: HasKeyAt(labels, i, k) && (forall j :: i < j < |labels| ==> !HasKeyAt(labels, j, k)) ==>
      k in BuildLabels(labels).value && "value" in labels[i].fields &&
      BuildLabels(labels).value[k] == labels[i].fields["value"]
  {
    if labels != [] {
      var n := |labels| - 1;
      var init := labels[..n];
      LabelsLastWins(init);
      var m := BuildLabels(init).value;
      var pair := LabelPair(labels[n]).value;
      assert BuildLabels(labels).value == m[pair.0 := pair.1];
      assert WellFormedLabel(labels[n]) && HasKeyAt(labels, n, pair.0);
      assert forall i :: 0 <= i < n ==> labels[i] == init[i];
      assert forall i, k :: 0 <= i < n ==> (HasKeyAt(labels, i, k) <==> HasKeyAt(init, i, k));
      forall k
        ensures k in BuildLabels(labels).value <==> exists i :: HasKeyAt(labels, i, k)
      {
        if k in m {
          var i :| HasKeyAt(init, i, k);
          assert HasKeyAt(labels, i, k);
        }
        if exists i :: HasKeyAt(labels, i, k) {
          var i :| HasKeyAt(labels, i, k);
          if i < n {
            assert HasKeyAt(init, i, k);
          }
        }
      }
      forall i, k | HasKeyAt(labels, i, k) && (forall j :: i < j < |labels| ==> !HasKeyAt(labels, j, k))
        ensures k in BuildLabels(labels).value && "value" in labels[i].fields
          && BuildLabels(labels).value[k] == labels[i].fields["value"]
      {
        if i < n {
          assert !HasKeyAt(labels, n, k);
          assert HasKeyAt(init, i, k);
          assert forall j :: i < j < |init| ==> !HasKeyAt(init, j, k);
        }
      }
    }
  }

  /** A 'labels' value that is not a list is rejected before any label is read. */
  lemma LabelsMustBeList(f: TemplateFields, t: Json)
    requires t.JObj? && "labels" in t.fields && !t.fields["labels"].JList?
    ensures WithLabels(f, t) == Err(InvalidJson(LabelsNotArray))
  {
  }

  /** A label dictionary without 'key' or without 'value' is rejected. */
  lemma {:induction false} LabelWithoutKeyRejected(labels: seq<Json>, i: nat)
    requires i < |labels| && labels[i].JObj? && !("key" in labels[i].fields && "value" in labels[i].fields)
    requires forall j :: 0 <= j < i ==> labels[j].JObj? && "key" in labels[j].fields && "value" in labels[j].fields
    ensures CheckLabels(labels) == Err(InvalidJson(LabelWithoutKeyValue))
  {
    if i > 0 {
      LabelWithoutKeyRejected(labels[1..], i - 1);
    }
  }

  /**
   * A well-formed cluster without a 'template' key gets a template named
   * "template-<cluster name>" with every default and no disks attribute.
   */
  lemma NoTemplateKey(d: Json)
    requires WellFormedCluster(d) && "template" !in d.fields && CouchbaseFrom(d).Ok?
    ensures ClusterFrom(d).Ok?
    ensures ClusterFrom(d).value.template == DefaultTemplate(JStr("template-" + Show(d.fields["name"])))
    ensures ClusterFrom(d).value.name == d.fields["name"]
    ensures ClusterFrom(d).value.storage.bucket == d.fields["storage"].fields["bucket"]
  {
  }

  /** A definition is accepted only if it passes every presence check. */
  lemma ClusterNeedsRequiredKeys(d: Json)
    requires ClusterFrom(d).Ok?
    ensures WellFormedCluster(d)
    ensures ClusterFrom(d).value.size != JNull && ClusterFrom(d).value.region != JNull
    ensures ClusterFrom(d).value.storage.bucket != JNull
  {
  }

  // ---------------------------------------------------------------------
  // Filling the TemplateParams object

  method FillImageFields(tp: TemplateParams, t: Json) returns (r: Result<Unit>)
    modifies tp
    ensures r.Ok? <==> WithImageFields(old(tp.Fields()), t).Ok?
    ensures r.Ok? ==> tp.Fields() == WithImageFields(old(tp.Fields()), t).value
    ensures r.Err? ==> r.error == WithImageFields(old(tp.Fields()), t).error
  {
    if !Iterable(t) {
      return Err(NotIterable(t));
    }
    if In("machine_type", t) {
      tp.machineType :- Index(t, "machine_type");
    }
    if In("image_project", t) {
      tp.imageProject :- Index(t, "image_project");
    }
    if In("image_family", t) {
      tp.imageFamily :- Index(t, "image_family");
    }
    return Ok(Unit);
  }

  method FillRegion(tp: TemplateParams, t: Json) returns (r: Result<Unit>)
    modifies tp
    ensures r.Ok? <==> WithRegion(old(tp.Fields()), t).Ok?
    ensures r.Ok? ==> tp.Fields() == WithRegion(old(tp.Fields()), t).value
    ensures r.Err? ==> r.error == WithRegion(old(tp.Fields()), t).error
  {
    var hasRegion :- Contains(t, "region");
    if hasRegion {
      var region :- Index(t, "region");
      tp.region := Some(region);
    }
    return Ok(Unit);
  }

  method FillDisks(tp: TemplateParams, t: Json) returns (r: Result<Unit>)
    modifies tp
    ensures r.Ok? <==> WithDisks(old(tp.Fields()), t).Ok?
    ensures r.Ok? ==> tp.Fields() == WithDisks(old(tp.Fields()), t).value
    ensures r.Err? ==> r.error == WithDisks(old(tp.Fields()), t).error
  {
    var hasDisks :- Contains(t, "disks");
    if hasDisks {
      var disks :- Index(t, "disks");
      r := tp.SetDisks(disks);
    } else {
      r := tp.SetDisks(DefaultDisks);
    }
  }

  method FillLabels(tp: TemplateParams, t: Json) returns (r: Result<Unit>)
    modifies tp
    ensures r.Ok? <==> WithLabels(old(tp.Fields()), t).Ok?
    ensures r.Ok? ==> tp.Fields() == WithLabels(old(tp.Fields()), t).value
    ensures r.Err? ==> r.error == WithLabels(old(tp.Fields()), t).error
  {
    var hasLabels :- Contains(t, "labels");
    if !hasLabels {
      return Ok(Unit);
    }
    var labels :- Index(t, "labels");
    if !labels.JList? {
      return Err(InvalidJson(LabelsNotArray));
    }
    var items := labels.items;
    var i := 0;
    while i < |items|
      invariant 0 <= i <= |items|
      invariant CheckLabels(items) == CheckLabels(items[i..])
    {
      assert items[i..][1..] == items[i + 1..];
      if !Iterable(items[i]) {
        return Err(NotIterable(items[i]));
      }
      if !In("key", items[i]) || !In("value", items[i]) {
        return Err(InvalidJson(LabelWithoutKeyValue));
      }
      i := i + 1;
    }
    var m :- BuildLabels(items);
    tp.labels := m;
    return Ok(Unit);
  }

  method FillScriptUrls(tp: TemplateParams, t: Json) returns (r: Result<Unit>)
    modifies tp
    ensures r.Ok? <==> WithScriptUrls(old(tp.Fields()), t).Ok?
    ensures r.Ok? ==> tp.Fields() == WithScriptUrls(old(tp.Fields()), t).value
    ensures r.Err? ==> r.error == WithScriptUrls(old(tp.Fields()), t).error
  {
    if !Iterable(t) {
      return Err(NotIterable(t));
    }
    if In("startup_script_url", t) {
      var url :- Index(t, "startup_script_url");
      tp.startupScriptUrl := Some(url);
    }
    if In("shutdown_script_url", t) {
      var url :- Index(t, "shutdown_script_url");
      tp.shutdownScriptUrl := Some(url);
    }
    return Ok(Unit);
  }

  /** parse_instance_template. */
  method ParseInstanceTemplate(dict: Json, clusterName: Json) returns (r: Result<TemplateParams>)
    ensures r.Ok? <==> TemplateFrom(dict, clusterName).Ok?
    ensures r.Ok? ==> fresh(r.value) && r.value.Fields() == TemplateFrom(dict, clusterName).value
    ensures r.Err? ==> r.error == TemplateFrom(dict, clusterName).error
  {
    var name :- TemplateNameFor(dict, clusterName);
    var tp := new TemplateParams(name);
    if Truthy(dict) {
      var step :- FillImageFields(tp, dict);
      step :- FillRegion(tp, dict);
      step :- FillDisks(tp, dict);
      step :- FillLabels(tp, dict);
      step :- FillScriptUrls(tp, dict);
    }
    return Ok(tp);
  }

  /** parse_instance_template_from_json: the same with no cluster name. */
  method ParseInstanceTemplateFromJson(dict: Json) returns (r: Result<TemplateParams>)
    ensures r.Ok? <==> TemplateFrom(dict, JNull).Ok?
    ensures r.Ok? ==> fresh(r.value) && r.value.Fields() == TemplateFrom(dict, JNull).value
    ensures IsNone(dict) ==> r == Err(InvalidJson(TemplateUnspecified))
  {
    r := ParseInstanceTemplate(dict, JNull);
  }

  /** parse_cluster_def_from_json. */
  method ParseClusterDefFromJson(d: Json) returns (r: Result<ClusterParams>)
    ensures r.Ok? <==> ClusterFrom(d).Ok?
    ensures r.Ok? ==> fresh(r.value.template) && Def(r.value) == ClusterFrom(d).value
    ensures r.Err? ==> r.error == ClusterFrom(d).error
  {
    var checked :- CheckClusterDict(d);
    var name := d.fields["name"];
    var storageDict := d.fields["storage"];
    var storage := StorageParams(storageDict.fields["bucket"]);
    if "type" in storageDict.fields {
      storage := storage.(storageType := storageDict.fields["type"]);
    }
    var template: TemplateParams;
    if "template" in d.fields {
      template :- ParseInstanceTemplate(d.fields["template"], name);
    } else {
      template := new TemplateParams(JStr("template-" + Show(name)));
    }
    var couchbase :- CouchbaseFrom(d);
    return Ok(ClusterParams(name, d.fields["size"], d.fields["region"], storage, template, couchbase));
  }
}
