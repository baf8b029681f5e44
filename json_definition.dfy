/**
 * The cluster definition read from a JSON document whose cluster name
 * arrives separately (utils/json.py): the presence checks raise
 * JsonParseException, and the template carries only the image fields and
 * the disks.
 */
module JsonDefinition {
  import opened Common
  import opened JsonValue
  import opened Entities
  import RequestParser

  const ClusterMissing := "Key 'cluster' not found in the json object. The json is mal formed"
  const StorageMissing := "Key 'cluster.storage' not found in the json object. The json is mal formed"
  const SizeMissing := "Cluster size is missing from the json object"
  const RegionMissing := "Cluster region is missing from the json object"
  const BucketMissing := "Cluster storage bucket is missing from the json object"

  /** What the checks demand: a 'cluster' dictionary with storage, and non-None size, region and bucket. */
  predicate WellFormed(j: Json) {
    j.JObj? && "cluster" in j.fields &&
    var c := j.fields["cluster"];
    c.JObj? && "storage" in c.fields &&
    RequestParser.Present(c, "size") && RequestParser.Present(c, "region") &&
    RequestParser.Present(c.fields["storage"], "bucket")
  }

  /** The checks, in their order: cluster, cluster.storage, size, region, bucket. */
  function Check(j: Json): (r: Result<Unit>)
    ensures r.Ok? <==> WellFormed(j)
    ensures j.JObj? && "cluster" !in j.fields ==> r == Err(JsonParse(ClusterMissing))
    ensures (j.JObj? && "cluster" in j.fields && j.fields["cluster"].JObj? &&
             "storage" !in j.fields["cluster"].fields)
      ==> r == Err(JsonParse(StorageMissing))
  {
    if !Iterable(j) then Err(NotIterable(j))
    else if !In("cluster", j) then Err(JsonParse(ClusterMissing)) else
    var c :- Index(j, "cluster");
    if !Iterable(c) then Err(NotIterable(c))
    else if !In("storage", c) then Err(JsonParse(StorageMissing)) else
    var size :- Index(c, "size");
    if IsNone(size) then Err(JsonParse(SizeMissing)) else
    var region :- Index(c, "region");
    if IsNone(region) then Err(JsonParse(RegionMissing)) else
    var bucket :- Index(c.fields["storage"], "bucket");
    if IsNone(bucket) then Err(JsonParse(BucketMissing)) else Ok(Unit)
  }

  /** The template name: the template's 'name' key when there is one, else "template-<cluster name>". */
  function TemplateName(c: Json, clusterName: Json): Result<Json>
    requires c.JObj?
  {
    if "template" !in c.fields then Ok(JStr("template-" + Show(clusterName))) else
    var hasName :- Contains(c.fields["template"], "name");
    if hasName then Index(c.fields["template"], "name") else Ok(JStr("template-" + Show(clusterName)))
  }

  /** parse_cluster_def_from_json, read as a value. */
  function ClusterFrom(j: Json, clusterName: Json): Result<ClusterDef> {
    var _ :- Check(j);
    var c := j.fields["cluster"];
    var storage := StorageParams(c.fields["storage"].fields["bucket"]);
    var name :- TemplateName(c, clusterName);
    var template :-
      if "template" in c.fields then
        var f :- RequestParser.WithImageFields(DefaultTemplate(name), c.fields["template"]);
        RequestParser.WithDisks(f, c.fields["template"])
      else Ok(DefaultTemplate(name));
    var couchbase :- RequestParser.CouchbaseFrom(c);
    Ok(ClusterDef(clusterName, c.fields["size"], c.fields["region"], storage, template, couchbase))
  }

  /**
   * The cluster is named by the argument, never by the document, and a
   * template without 'name' is called "template-<that name>".
   */
  lemma NameFromArgument(j: Json, clusterName: Json)
    requires ClusterFrom(j, clusterName).Ok?
    ensures WellFormed(j)
    ensures ClusterFrom(j, clusterName).value.name == clusterName
    ensures var c := j.fields["cluster"];
      !("template" in c.fields && c.fields["template"].JObj? && "name" in c.fields["template"].fields) ==>
        ClusterFrom(j, clusterName).value.template.name == JStr("template-" + Show(clusterName))
  {
  }

  /**
   * A template without 'disks' gets the single default boot disk; a
   * cluster without a template has no disks attribute; without
   * 'couchbase' there are no credentials.
   */
  lemma TemplateAndCredentialDefaults(j: Json, clusterName: Json)
    requires ClusterFrom(j, clusterName).Ok?
    ensures var c := j.fields["cluster"];
      "template" in c.fields && c.fields["template"].JObj? && "disks" !in c.fields["template"].fields ==>
        ClusterFrom(j, clusterName).value.template.disks == Some([DiskParams(JInt(10), JStr("pd-standard"), JBool(true))])
    ensures "template" !in j.fields["cluster"].fields ==> ClusterFrom(j, clusterName).value.template.disks == None
    ensures "couchbase" !in j.fields["cluster"].fields ==> ClusterFrom(j, clusterName).value.couchbase == None
  {
    var c := j.fields["cluster"];
    if "template" in c.fields && c.fields["template"].JObj? && "disks" !in c.fields["template"].fields {
      var name := TemplateName(c, clusterName).value;
      var f := RequestParser.WithImageFields(DefaultTemplate(name), c.fields["template"]).value;
      RequestParser.DefaultDiskWhenAbsent(f, c.fields["template"]);
    }
  }

  /** parse_cluster_def_from_json: the same, filling a TemplateParams object. */
  method ParseClusterDefFromJson(j: Json, clusterName: Json) returns (r: Result<ClusterParams>)
    ensures r.Ok? <==> ClusterFrom(j, clusterName).Ok?
    ensures r.Ok? ==> fresh(r.value.template) && Def(r.value) == ClusterFrom(j, clusterName).value
    ensures r.Err? ==> r.error == ClusterFrom(j, clusterName).error
  {
    var checked :- Check(j);
    var c := j.fields["cluster"];
    var storage := StorageParams(c.fields["storage"].fields["bucket"]);
    var name :- TemplateName(c, clusterName);
    var template := new TemplateParams(name);
    if "template" in c.fields {
      var step :- RequestParser.FillImageFields(template, c.fields["template"]);
      step :- RequestParser.FillDisks(template, c.fields["template"]);
    }
    var couchbase :- RequestParser.CouchbaseFrom(c);
    return Ok(ClusterParams(clusterName, c.fields["size"], c.fields["region"], storage, template, couchbase));
  }
}
