/**
 * The parameter objects of shared/entities: the cluster, its storage,
 * couchbase credentials and instance template as the parsers fill them
 * (field values are decoded JSON, exactly as read), and the typed view
 * of a cluster that the orchestrators work with.
 */
module Entities {
  import opened Common
  import opened JsonValue

  /** TemplateDiskParams; `boot` defaults to True. */
  datatype DiskParams = DiskParams(size: Json, diskType: Json, boot: Json := JBool(true))

  /** The parameter record one element of a `disks` list gives: `boot` is read first, then size and type. */
  function DiskFrom(disk: Json): (r: Result<DiskParams>)
    ensures r.Ok? <==> Index(disk, "boot").Ok? && Index(disk, "size").Ok? && Index(disk, "type").Ok?
    ensures r.Ok? ==> r.value == DiskParams(disk.fields["size"], disk.fields["type"], disk.fields["boot"])
    ensures Index(disk, "boot").Err? ==> r == Err(Index(disk, "boot").error)
  {
    var boot :- Index(disk, "boot");
    var size :- Index(disk, "size");
    var diskType :- Index(disk, "type");
    Ok(DiskParams(size, diskType, boot))
  }

  /** One parameter record per element, in order; the first failing element's error otherwise. */
  function ParseDisks(items: seq<Json>): Result<seq<DiskParams>> {
    if items == [] then Ok([])
    else
      var init :- ParseDisks(items[..|items| - 1]);
      var last :- DiskFrom(items[|items| - 1]);
      Ok(init + [last])
  }

  /** How many records have `boot == True`. */
  function BootCount(ps: seq<DiskParams>): nat {
    if ps == [] then 0
    else BootCount(ps[..|ps| - 1]) + if EqualsTrue(ps[|ps| - 1].boot) then 1 else 0
  }

  const MoreThanOneBoot := "More than one boot disk found"

  /** What `set_disks` on a list leaves in `disks`, or the error it raises. */
  function DisksOutcome(items: seq<Json>): Result<seq<DiskParams>> {
    var ps :- ParseDisks(items);
    if BootCount(ps) > 1 then Err(Raised(MoreThanOneBoot)) else Ok(ps)
  }

  /** A parse that fails on a prefix fails the same way on the whole list. */
  lemma {:induction false} ParseDisksFirstError(items: seq<Json>, i: nat)
    requires i <= |items| && ParseDisks(items[..i]).Err?
    ensures ParseDisks(items) == ParseDisks(items[..i])
    decreases |items| - i
  {
    if i < |items| {
      assert items[..i + 1][..i] == items[..i];
      ParseDisksFirstError(items, i + 1);
    } else {
      assert items[..i] == items;
    }
  }

  /**
   * `set_disks` keeps one record per input disk, in input order, with size,
   * type and boot copied; it succeeds exactly when every element has the
   * three keys.
   */
  lemma {:induction false} ParseDisksInOrder(items: seq<Json>)
    ensures ParseDisks(items).Ok? <==> forall i :: 0 <= i < |items| ==> DiskFrom(items[i]).Ok?
    ensures ParseDisks(items).Ok? ==>
      |ParseDisks(items).value| == |items| &&
      forall i :: 0 <= i < |items| ==> DiskFrom(items[i]) == Ok(ParseDisks(items).value[i])
  {
    if items != [] {
      var init := items[..|items| - 1];
      ParseDisksInOrder(init);
      assert forall i :: 0 <= i < |init| ==> init[i] == items[i];
    }
  }

  /**
   * The single-boot-disk rule: a well-formed list is accepted exactly when
   * at most one of its disks has boot == True, so zero boot disks pass.
   */
  lemma SingleBootRule(items: seq<Json>)
    requires ParseDisks(items).Ok?
    ensures DisksOutcome(items).Ok? <==> BootCount(ParseDisks(items).value) <= 1
    ensures DisksOutcome(items).Err? ==> DisksOutcome(items).error == Raised(MoreThanOneBoot)
  {
  }

  /** Two boot disks anywhere in a well-formed list are rejected. */
  lemma {:induction false} TwoBootDisksRejected(items: seq<Json>, i: nat, j: nat)
    requires ParseDisks(items).Ok?
    requires i < j < |ParseDisks(items).value|
    requires EqualsTrue(ParseDisks(items).value[i].boot) && EqualsTrue(ParseDisks(items).value[j].boot)
    ensures DisksOutcome(items) == Err(Raised(MoreThanOneBoot))
  {
    BootCountAtLeast(ParseDisks(items).value, i, j);
  }

  lemma {:induction false} BootCountAtLeast(ps: seq<DiskParams>, i: nat, j: nat)
    requires i < j < |ps| && EqualsTrue(ps[i].boot) && EqualsTrue(ps[j].boot)
    ensures BootCount(ps) >= 2
  {
    var init := ps[..|ps| - 1];
    if j < |ps| - 1 {
      BootCountAtLeast(init, i, j);
    } else {
      BootCountAtLeastOne(init, i);
    }
  }

  lemma {:induction false} BootCountAtLeastOne(ps: seq<DiskParams>, i: nat)
    requires i < |ps| && EqualsTrue(ps[i].boot)
    ensures BootCount(ps) >= 1
  {
    if i < |ps| - 1 {
      BootCountAtLeastOne(ps[..|ps| - 1], i);
    }
  }

  /** A snapshot of a TemplateParams object's attributes. */
  datatype TemplateFields = TemplateFields(
    name: Json,
    machineType: Json,
    imageProject: Json,
    imageFamily: Json,
    labels: map<Json, Json>,
    disks: Option<seq<DiskParams>>,
    region: Option<Json>,
    startupScriptUrl: Option<Json>,
    shutdownScriptUrl: Option<Json>)

  /** The attributes of a freshly constructed TemplateParams. */
  function DefaultTemplate(name: Json): TemplateFields {
    TemplateFields(name, JStr("e2-micro"), JStr("debian-cloud"), JStr("debian-11"), map[], None, None, None, None)
  }

  /** TemplateParams as the parsers fill it. Optional attributes are absent until assigned. */
  class TemplateParams {
    var name: Json
    var machineType: Json
    var imageProject: Json
    var imageFamily: Json
    var labels: map<Json, Json>
    var disks: Option<seq<DiskParams>>
    var region: Option<Json>
    var startupScriptUrl: Option<Json>
    var shutdownScriptUrl: Option<Json>

    function Fields(): TemplateFields
      reads this
    {
      TemplateFields(name, machineType, imageProject, imageFamily, labels, disks, region, startupScriptUrl, shutdownScriptUrl)
    }

    /** The defaults: e2-micro, debian-cloud, debian-11, no labels, no disks attribute yet. */
    constructor (name: Json)
      ensures Fields() == DefaultTemplate(name)
    {
      this.name := name;
      machineType := JStr("e2-micro");
      imageProject := JStr("debian-cloud");
      imageFamily := JStr("debian-11");
      labels := map[];
      disks := None;
      region := None;
      startupScriptUrl := None;
      shutdownScriptUrl := None;
    }

    /**
     * set_disks: a list is converted element by element while boot disks are
     * counted; more than one boot disk raises and leaves `disks` unassigned;
     * anything but a list exits the process with status 0.
     */
    method SetDisks(value: Json) returns (r: Result<Unit>)
      modifies this`disks
      ensures !value.JList? ==> r == Err(Exit(0)) && disks == old(disks)
      ensures value.JList? && DisksOutcome(value.items).Ok? ==>
        r == Ok(Unit) && disks == Some(DisksOutcome(value.items).value)
      ensures value.JList? && DisksOutcome(value.items).Err? ==>
        r == Err(DisksOutcome(value.items).error) && disks == old(disks)
    {
      if !value.JList? {
        return Err(Exit(0));
      }
      var items := value.items;
      var count := 0;
      var acc: seq<DiskParams> := [];
      var i := 0;
      while i < |items|
        invariant 0 <= i <= |items|
        invariant ParseDisks(items[..i]) == Ok(acc)
        invariant count == BootCount(acc)
      {
        var disk := items[i];
        assert items[..i + 1][..i] == items[..i];
        var boot := Index(disk, "boot");
        if boot.Err? {
          ParseDisksFirstError(items, i + 1);
          return Err(boot.error);
        }
        if EqualsTrue(boot.value) {
          count := count + 1;
        }
        var size := Index(disk, "size");
        if size.Err? {
          ParseDisksFirstError(items, i + 1);
          return Err(size.error);
        }
        var diskType := Index(disk, "type");
        if diskType.Err? {
          ParseDisksFirstError(items, i + 1);
          return Err(diskType.error);
        }
        acc := acc + [DiskParams(size.value, diskType.value, boot.value)];
        i := i + 1;
      }
      assert items[..i] == items;
      if count > 1 {
        return Err(Raised(MoreThanOneBoot));
      }
      disks := Some(acc);
      return Ok(Unit);
    }
  }

  /** GCPStorageParams; the type defaults to "gcp_storage". */
  datatype StorageParams = StorageParams(bucket: Json, storageType: Json := JStr("gcp_storage"))

  /** CouchbaseParams; both credentials default to placeholders. */
  datatype CouchbaseParams = CouchbaseParams(username: Json := JStr("username"), password: Json := JStr("password"))

  /** ClusterParams as the parsers return it. */
  datatype ClusterParams = ClusterParams(
    name: Json,
    size: Json,
    region: Json,
    storage: StorageParams,
    template: TemplateParams,
    couchbase: Option<CouchbaseParams>)

  /** A ClusterParams with its template's attributes read out. */
  datatype ClusterDef = ClusterDef(
    name: Json,
    size: Json,
    region: Json,
    storage: StorageParams,
    template: TemplateFields,
    couchbase: Option<CouchbaseParams>)

  function Def(c: ClusterParams): ClusterDef
    reads c.template
  {
    ClusterDef(c.name, c.size, c.region, c.storage, c.template.Fields(), c.couchbase)
  }

  /** ClusterUpdateType. */
  datatype UpdateType = UpdateAndMigrate | UpdateNoMigrate

  /** The cluster as the orchestrators use it: the same fields with the types they are used at. */
  datatype Credentials = Credentials(username: string, password: string)

  datatype TemplateSpec = TemplateSpec(
    name: string,
    machineType: string,
    imageProject: string,
    imageFamily: string,
    disks: Option<seq<DiskParams>>,
    labels: map<string, string>)

  datatype ClusterSpec = ClusterSpec(
    name: string,
    size: int,
    region: string,
    bucket: string,
    template: TemplateSpec,
    credentials: Option<Credentials>)
}
