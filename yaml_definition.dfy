/**
 * The cluster definition read from a YAML file (utils/yaml.py). Every
 * failed check exits the process with status 0; a document that does not
 * load exits with status 1. The template is indexed before its presence is
 * checked, and the fallback template name refers to an undefined `self`, so
 * only a definition that names its template is accepted.
 */
module YamlDefinition {
  import opened Common
  import opened JsonValue
  import opened Entities
  import RequestParser

  /** What opening and loading the file gave. */
  datatype YamlDocument =
    | Unreadable(reason: string)   // `open` raised
    | Malformed                     // `yaml.safe_load` raised YAMLError
    | Document(data: Json)

  /** What the checks demand: cluster and storage keys, non-None name, size, region and bucket. */
  predicate WellFormed(data: Json) {
    data.JObj? && "cluster" in data.fields &&
    var c := data.fields["cluster"];
    c.JObj? && "storage" in c.fields &&
    RequestParser.Present(c, "name") && RequestParser.Present(c, "size") &&
    RequestParser.Present(c, "region") && RequestParser.Present(c.fields["storage"], "bucket")
  }

  /** The checks, each exiting with status 0. */
  function Check(data: Json): (r: Result<Unit>)
    ensures r.Ok? <==> WellFormed(data)
    ensures data.JObj? && "cluster" !in data.fields ==> r == Err(Exit(0))
    ensures (data.JObj? && "cluster" in data.fields && data.fields["cluster"].JObj? &&
             "storage" !in data.fields["cluster"].fields)
      ==> r == Err(Exit(0))
    ensures (data.JObj? && "cluster" in data.fields && data.fields["cluster"].JObj? &&
             var c := data.fields["cluster"];
             "storage" in c.fields && c.fields["storage"].JObj? &&
             "name" in c.fields && "size" in c.fields && "region" in c.fields && "bucket" in c.fields["storage"].fields)
      ==> (r.Ok? || r == Err(Exit(0)))
  {
    if !Iterable(data) then Err(NotIterable(data))
    else if !In("cluster", data) then Err(Exit(0)) else
    var c :- Index(data, "cluster");
    if !Iterable(c) then Err(NotIterable(c))
    else if !In("storage", c) then Err(Exit(0)) else
    var name :- Index(c, "name");
    if IsNone(name) then Err(Exit(0)) else
    var size :- Index(c, "size");
    if IsNone(size) then Err(Exit(0)) else
    var region :- Index(c, "region");
    if IsNone(region) then Err(Exit(0)) else
    var bucket :- Index(c.fields["storage"], "bucket");
    if IsNone(bucket) then Err(Exit(0)) else Ok(Unit)
  }

  /** The template name: `data['cluster']['template']['name']`, or a NameError on `self`. */
  function TemplateName(c: Json): Result<Json>
    requires c.JObj?
  {
    var t :- Index(c, "template");
    var hasName :- Contains(t, "name");
    if !hasName then Err(NameError("self")) else Index(t, "name")
  }

  /** parse_from_yaml after the document is loaded, read as a value. */
  function ClusterFrom(data: Json): Result<ClusterDef> {
    var _ :- Check(data);
    var c := data.fields["cluster"];
    var storage := StorageParams(c.fields["storage"].fields["bucket"]);
    var name :- TemplateName(c);
    var f :- RequestParser.WithImageFields(DefaultTemplate(name), c.fields["template"]);
    var template :- RequestParser.WithDisks(f, c.fields["template"]);
    var couchbase :- RequestParser.CouchbaseFrom(c);
    Ok(ClusterDef(c.fields["name"], c.fields["size"], c.fields["region"], storage, template, couchbase))
  }

  /** parse_from_yaml, from the file's load outcome. */
  function ParseFromYaml(doc: YamlDocument): (r: Result<ClusterDef>)
    ensures doc.Malformed? ==> r == Err(Exit(1))
    ensures doc.Unreadable? ==> r == Err(OSError(doc.reason))
  {
    match doc
    case Unreadable(reason) => Err(OSError(reason))
    case Malformed => Err(Exit(1))
    case Document(data) => ClusterFrom(data)
  }

  /**
   * Only a definition whose template dictionary names the template is
   * accepted: without 'template' the lookup raises KeyError, and without a
   * template name the fallback raises NameError.
   */
  lemma OnlyNamedTemplatesAccepted(data: Json)
    requires WellFormed(data)
    ensures var c := data.fields["cluster"];
      "template" !in c.fields ==> ClusterFrom(data) == Err(KeyError("template"))
    ensures var c := data.fields["cluster"];
      "template" in c.fields && c.fields["template"].JObj? && "name" !in c.fields["template"].fields ==>
        ClusterFrom(data) == Err(NameError("self"))
    ensures ClusterFrom(data).Ok? ==>
      var t := data.fields["cluster"].fields["template"];
      t.JObj? && "name" in t.fields && ClusterFrom(data).value.template.name == t.fields["name"]
  {
  }

  /**
   * An accepted definition keeps the document's name, size, region and
   * bucket; a template without 'disks' gets the default boot disk; without
   * 'couchbase' there are no credentials.
   */
  lemma AcceptedDefinition(data: Json)
    requires ClusterFrom(data).Ok?
    ensures WellFormed(data)
    ensures var c := data.fields["cluster"]; var d := ClusterFrom(data).value;
      d.name == c.fields["name"] && d.size == c.fields["size"] && d.region == c.fields["region"] &&
      d.storage == StorageParams(c.fields["storage"].fields["bucket"])
    ensures var t := data.fields["cluster"].fields["template"];
      t.JObj? && "disks" !in t.fields ==>
        ClusterFrom(data).value.template.disks == Some([DiskParams(JInt(10), JStr("pd-standard"), JBool(true))])
    ensures "couchbase" !in data.fields["cluster"].fields ==> ClusterFrom(data).value.couchbase == None
  {
    var c := data.fields["cluster"];
    var t := c.fields["template"];
    if t.JObj? && "disks" !in t.fields {
      var f := RequestParser.WithImageFields(DefaultTemplate(TemplateName(c).value), t).value;
      RequestParser.DefaultDiskWhenAbsent(f, t);
    }
  }

  /** parse_from_yaml, filling a TemplateParams object. */
  method ParseFromYamlFile(doc: YamlDocument) returns (r: Result<ClusterParams>)
    ensures r.Ok? <==> ParseFromYaml(doc).Ok?
    ensures r.Ok? ==> fresh(r.value.template) && Def(r.value) == ParseFromYaml(doc).value
    ensures r.Err? ==> r.error == ParseFromYaml(doc).error
  {
    if doc.Unreadable? {
      return Err(OSError(doc.reason));
    } else if doc.Malformed? {
      return Err(Exit(1));
    }
    var data := doc.data;
    var checked :- Check(data);
    var c := data.fields["cluster"];
    var storage := StorageParams(c.fields["storage"].fields["bucket"]);
    var name :- TemplateName(c);
    var template := new TemplateParams(name);
    var step :- RequestParser.FillImageFields(template, c.fields["template"]);
    step :- RequestParser.FillDisks(template, c.fields["template"]);
    var couchbase :- RequestParser.CouchbaseFrom(c);
    return Ok(ClusterParams(c.fields["name"], c.fields["size"], c.fields["region"], storage, template, couchbase));
  }
}
