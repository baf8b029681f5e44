/**
 * The cluster definition from command-line arguments (utils/args.py).
 * With a YAML file the YAML reader decides everything. Without one, a
 * missing required argument calls the usage helper, which refers to a name
 * `args` that its module never defines, and a complete set of arguments
 * reaches a reference to the misspelt `agrs`; neither path builds a
 * cluster.
 */
module ArgsDefinition {
  import opened Common
  import opened JsonValue
  import opened Entities
  import YamlDefinition

  /** The parsed namespace, as far as the definition reads it; None is JNull. */
  datatype Args = Args(
    command: Json,
    yamlFile: Json,
    clusterName: Json,
    clusterSize: Json,
    region: Json,
    bucket: Json)

  /** The required arguments in the order they are checked. */
  function Required(args: Args): seq<Json> {
    [args.clusterName, args.clusterSize, args.region, args.bucket]
  }

  /** cluster_from_args, read as a value; `doc` is what loading the YAML file gives. */
  function ClusterFromArgs(args: Args, doc: YamlDefinition.YamlDocument): (r: Result<ClusterDef>)
    ensures !IsNone(args.yamlFile) ==> r == YamlDefinition.ParseFromYaml(doc)
  {
    if !IsNone(args.yamlFile) then YamlDefinition.ParseFromYaml(doc)
    else if IsNone(args.clusterName) || IsNone(args.clusterSize) || IsNone(args.region) || IsNone(args.bucket) then
      // required_error_msg builds its usage line from `args`, a name its module never binds,
      // so the ValueError that would follow is never raised
      Err(NameError("args"))
    else Err(NameError("agrs"))
  }

  /**
   * Without a YAML file no cluster is ever built: a missing required
   * argument ends in the usage helper's NameError, before the ValueError
   * meant for it, and a complete set ends at the misspelt `agrs`.
   */
  lemma ArgumentsNeverBuildCluster(args: Args, doc: YamlDefinition.YamlDocument)
    requires IsNone(args.yamlFile)
    ensures ClusterFromArgs(args, doc).Err?
    ensures (exists i :: 0 <= i < 4 && IsNone(Required(args)[i])) ==> ClusterFromArgs(args, doc) == Err(NameError("args"))
    ensures (forall i :: 0 <= i < 4 ==> !IsNone(Required(args)[i])) ==> ClusterFromArgs(args, doc) == Err(NameError("agrs"))
  {
    var req := Required(args);
    assert req[0] == args.clusterName && req[1] == args.clusterSize;
    assert req[2] == args.region && req[3] == args.bucket;
  }

  /** cluster_from_args, building the ClusterParams of the YAML branch. */
  method ClusterFromArgsMethod(args: Args, doc: YamlDefinition.YamlDocument) returns (r: Result<ClusterParams>)
    ensures r.Ok? <==> ClusterFromArgs(args, doc).Ok?
    ensures r.Ok? ==> fresh(r.value.template) && Def(r.value) == ClusterFromArgs(args, doc).value
    ensures r.Err? ==> r.error == ClusterFromArgs(args, doc).error
  {
    if !IsNone(args.yamlFile) {
      r := YamlDefinition.ParseFromYamlFile(doc);
      return;
    }
    var missing := IsNone(args.clusterName) || IsNone(args.clusterSize) || IsNone(args.region) || IsNone(args.bucket);
    if missing {
      return Err(NameError("args"));
    }
    return Err(NameError("agrs"));
  }
}
