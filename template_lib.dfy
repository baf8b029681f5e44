/**
 * Instance templates (shared/lib/template.py) and the image lookup they are
 * built from (shared/lib/images.py). A template cannot be changed in
 * place, so an update deletes it, reconciles the fetched copy field by
 * field and inserts it again under the same name.
 */
module TemplateLib {
  import opened Common
  import opened Cloud
  import opened Entities

  // ------------------------------------------------------------------ images

  const ImageFamilyHead := "Error getting image from family "

  /**
   * get_image_from_family: the newest image of the family, its self link;
   * any failure becomes GCPImageNotFoundException naming the family.
   */
  method GetImageFromFamily(p: Provider, imageProject: string, family: string) returns (r: Result<string>)
    modifies p
    ensures p.State() == old(p.State()).(log := old(p.log) + [GetImage(imageProject, family)])
    ensures r.Ok? <==> GetImage(imageProject, family) !in p.faults && (imageProject, family) in p.images
    ensures r.Ok? ==> r.value == p.images[(imageProject, family)]
    ensures r.Err? ==> r.error.Internal? && r.error.kind == ImageNotFound
  {
    var image := p.GetFromFamily(imageProject, family);
    if image.Err? {
      return Err(Internal(ImageNotFound, ImageFamilyHead + family + ": " + image.error.text));
    }
    return image;
  }

  // ------------------------------------------------------------ the record

  const CouchbaseTag := "couchbase-server"
  const DefaultNetwork := "global/networks/default"
  const ExternalNat := AccessConfig("External NAT", "ONE_TO_ONE_NAT", "PREMIUM")
  const Scopes := ["https://www.googleapis.com/auth/devstorage.read_only", "https://www.googleapis.com/auth/cloud-platform"]
  const EmailVariable := "COMPUTE_ENGINE_SERVICE_ACCOUNT_EMAIL"

  /** The metadata a template carries: both script URLs, then global DNS. */
  function Metadata(startup: string, shutdown: string): seq<MetadataItem> {
    [MetadataItem("startup-script-url", startup), MetadataItem("shutdown-script-url", shutdown), MetadataItem("VmDnsSetting", "global")]
  }

  /** The template `__create_template` inserts, once its disk list is built. */
  function NewTemplate(name: string, machineType: string, labels: map<string, string>, disks: seq<AttachedDisk>,
                       email: string, startup: string, shutdown: string): Template {
    Template(name, machineType, [CouchbaseTag], DefaultNetwork, [ExternalNat], labels, disks,
             [ServiceAccount(email, Scopes)], Metadata(startup, shutdown))
  }

  /** The TypeError a call of disk_from_image with five arguments raises. */
  const DiskArity := "disk_from_image() missing 1 required positional argument: 'auto_delete'"

  /**
   * `list(map(lambda p: disk_from_image(p.type, p.size, key, p.boot, image), disks))`:
   * the sixth argument, auto_delete, is never passed, so the first disk
   * raises; only an empty list maps, and an absent one is not iterable.
   */
  function FiveArgumentDisks(disks: Option<seq<DiskParams>>): (r: Result<seq<AttachedDisk>>)
    ensures r.Ok? <==> disks == Some([])
    ensures r.Ok? ==> r.value == []
    ensures disks.Some? && disks.value != [] ==> r == Err(TypeError(DiskArity))
  {
    match disks
    case None => Err(TypeError("'NoneType' object is not iterable"))
    case Some(ps) => if ps == [] then Ok([]) else Err(TypeError(DiskArity))
  }

  // ------------------------------------------------------------------ create

  /**
   * __create_template: build the disk list, read the service account from
   * the environment (`email`, None when unset), insert the template, wait,
   * and fetch it back. The key never reaches a disk: building the disk list
   * fails for every non-empty list.
   */
  method CreateTemplate(p: Provider, name: string, machineType: string, image: string, disks: Option<seq<DiskParams>>,
                        key: KeyRef, startup: string, shutdown: string, labels: map<string, string>, email: Option<string>)
    returns (r: Result<Template>)
    modifies p
    ensures r.Err? && r.error.Internal? ==> r.error.kind == OperationFailed
    ensures disks != Some([]) ==> r == Err(FiveArgumentDisks(disks).error) && p.State() == old(p.State())
    ensures disks == Some([]) && email.None? ==> r == Err(KeyError(EmailVariable)) && p.State() == old(p.State())
    ensures disks == Some([]) && email.Some? ==>
      var t := NewTemplate(name, machineType, labels, [], email.value, startup, shutdown);
      |p.log| > |old(p.log)| && p.log[..|old(p.log)|] == old(p.log) && p.log[|old(p.log)|] == InsertTemplate(t) &&
      (r.Ok? <==> InsertTemplate(t) !in p.faults && name !in old(p.templates) && GetTemplate(name) !in p.faults) &&
      (r.Ok? ==> r.value == t) &&
      (InsertTemplate(t) !in p.faults && name !in old(p.templates) ==> p.templates == old(p.templates)[name := t]) &&
      (InsertTemplate(t) in p.faults || name in old(p.templates) ==> p.templates == old(p.templates))
    ensures p.State() == old(p.State()).(templates := p.templates, log := p.log)
  {
    var built := FiveArgumentDisks(disks);
    if built.Err? {
      return Err(built.error);
    }
    if email.None? {
      return Err(KeyError(EmailVariable));
    }
    var t := NewTemplate(name, machineType, labels, built.value, email.value, startup, shutdown);
    var f := p.InsertTemplateCall(t);
    var waited := Wait(f);
    if waited.Err? {
      return Err(waited.error);
    }
    r := p.GetTemplateCall(name);
  }

  /** __get_instance_template: any error reads as "no such template". */
  method GetInstanceTemplate(p: Provider, name: string) returns (r: Option<Template>)
    modifies p
    ensures p.State() == old(p.State()).(log := old(p.log) + [GetTemplate(name)])
    ensures r.Some? <==> GetTemplate(name) !in p.faults && name in p.templates
    ensures r.Some? ==> r.value == p.templates[name]
  {
    var t := p.GetTemplateCall(name);
    if t.Err? {
      return None;
    }
    return Some(t.value);
  }

  /** __delete_instance_template: delete and wait; a missing template fails the operation with NotFound. */
  method DeleteInstanceTemplate(p: Provider, name: string) returns (r: Result<Unit>)
    modifies p
    ensures p.log == old(p.log) + [DeleteTemplate(name)]
    ensures r.Ok? <==> DeleteTemplate(name) !in p.faults && name in old(p.templates)
    ensures r.Ok? ==> p.templates == old(p.templates) - {name}
    ensures r.Err? ==> p.templates == old(p.templates)
    ensures DeleteTemplate(name) !in p.faults && name !in old(p.templates) ==> r == Err(ApiError(NotFound))
    ensures p.State() == old(p.State()).(templates := p.templates, log := p.log)
  {
    var f := p.DeleteTemplateCall(name);
    r := Wait(f);
  }

  // ------------------------------------------------------------------ update

  const OutOfRange := "list index out of range"

  /** An existing disk after the update loop: image, size and type from the desired disk, the rest kept. */
  function Refreshed(d: AttachedDisk, want: AttachedDisk): AttachedDisk {
    d.(sourceImage := want.sourceImage, sizeGb := want.sizeGb, diskType := want.diskType)
  }

  /**
   * What the update's reconciliation makes of the fetched template: every
   * existing disk refreshed from the desired disk at its position, the
   * machine type, both script URLs and the labels replaced. A desired list
   * shorter than the existing one, or metadata without two items, raises
   * IndexError.
   */
  function Reconciled(t: Template, newDisks: seq<AttachedDisk>, machineType: string, startup: string, shutdown: string,
                      labels: map<string, string>): Result<Template> {
    if |newDisks| < |t.disks| || |t.metadata| < 2 then Err(IndexError(OutOfRange))
    else Ok(t.(
      disks := seq(|t.disks|, i requires 0 <= i < |t.disks| => Refreshed(t.disks[i], newDisks[i])),
      machineType := machineType,
      metadata := t.metadata[0 := t.metadata[0].(value := startup)][1 := t.metadata[1].(value := shutdown)],
      labels := labels))
  }

  /**
   * The reconciled template keeps its name, tags, network, service accounts,
   * its disks' keys, boot flags and auto-delete flags, and every metadata
   * item after the second; desired disks beyond the existing ones are
   * ignored.
   */
  lemma ReconciledFields(t: Template, newDisks: seq<AttachedDisk>, machineType: string, startup: string, shutdown: string,
                         labels: map<string, string>)
    ensures Reconciled(t, newDisks, machineType, startup, shutdown, labels).Ok? <==> |t.disks| <= |newDisks| && |t.metadata| >= 2
    ensures var r := Reconciled(t, newDisks, machineType, startup, shutdown, labels);
      r.Ok? ==>
        r.value.name == t.name && r.value.tags == t.tags && r.value.network == t.network &&
        r.value.accessConfigs == t.accessConfigs && r.value.serviceAccounts == t.serviceAccounts &&
        r.value.machineType == machineType && r.value.labels == labels &&
        |r.value.disks| == |t.disks| &&
        (forall i :: 0 <= i < |t.disks| ==>
          r.value.disks[i].sourceImage == newDisks[i].sourceImage && r.value.disks[i].sizeGb == newDisks[i].sizeGb &&
          r.value.disks[i].diskType == newDisks[i].diskType && r.value.disks[i].encryption == t.disks[i].encryption &&
          r.value.disks[i].boot == t.disks[i].boot && r.value.disks[i].autoDelete == t.disks[i].autoDelete) &&
        |r.value.metadata| == |t.metadata| &&
        r.value.metadata[0] == MetadataItem(t.metadata[0].key, startup) &&
        r.value.metadata[1] == MetadataItem(t.metadata[1].key, shutdown) &&
        r.value.metadata[2..] == t.metadata[2..]
  {
  }

  /** Reconciling twice with the same wishes changes nothing more. */
  lemma ReconcileIdempotent(t: Template, newDisks: seq<AttachedDisk>, machineType: string, startup: string, shutdown: string,
                            labels: map<string, string>)
    requires Reconciled(t, newDisks, machineType, startup, shutdown, labels).Ok?
    ensures var once := Reconciled(t, newDisks, machineType, startup, shutdown, labels).value;
      Reconciled(once, newDisks, machineType, startup, shutdown, labels) == Ok(once)
  {
    var once := Reconciled(t, newDisks, machineType, startup, shutdown, labels).value;
    var twice := Reconciled(once, newDisks, machineType, startup, shutdown, labels).value;
    assert twice.disks == once.disks;
    assert twice.metadata == once.metadata;
  }

  /**
   * Updating a template this code created is creating it afresh with the
   * new machine type, script URLs and labels.
   */
  lemma UpdateOfCreatedTemplate(name: string, machineType: string, labels: map<string, string>, email: string,
                                startup: string, shutdown: string,
                                machineType': string, startup': string, shutdown': string, labels': map<string, string>)
    ensures Reconciled(NewTemplate(name, machineType, labels, [], email, startup, shutdown), [], machineType', startup', shutdown', labels')
      == Ok(NewTemplate(name, machineType', labels', [], email, startup', shutdown'))
  {
    var t := NewTemplate(name, machineType, labels, [], email, startup, shutdown);
    var u := NewTemplate(name, machineType', labels', [], email, startup', shutdown');
    assert Reconciled(t, [], machineType', startup', shutdown', labels').value.metadata == u.metadata;
    assert Reconciled(t, [], machineType', startup', shutdown', labels').value.disks == [] == u.disks;
  }

  /**
   * The loop of `__update_template` over the fetched template's disks, then
   * the machine-type, script-URL and label checks, each assigning only when
   * the value differs.
   */
  method Reconcile(t: Template, newDisks: seq<AttachedDisk>, machineType: string, startup: string, shutdown: string,
                   labels: map<string, string>) returns (r: Result<Template>)
    ensures r == Reconciled(t, newDisks, machineType, startup, shutdown, labels)
  {
    var disks := t.disks;
    for i := 0 to |disks|
      invariant |disks| == |t.disks| && i <= |newDisks|
      invariant forall k :: 0 <= k < i ==> disks[k] == Refreshed(t.disks[k], newDisks[k])
      invariant forall k :: i <= k < |disks| ==> disks[k] == t.disks[k]
    {
      if i >= |newDisks| {
        return Err(IndexError(OutOfRange));
      }
      var d := disks[i];
      if d.sourceImage != newDisks[i].sourceImage {
        d := d.(sourceImage := newDisks[i].sourceImage);
      }
      if d.sizeGb != newDisks[i].sizeGb {
        d := d.(sizeGb := newDisks[i].sizeGb);
      }
      if d.diskType != newDisks[i].diskType {
        d := d.(diskType := newDisks[i].diskType);
      }
      disks := disks[i := d];
    }
    var u := t.(disks := disks);
    if u.machineType != machineType {
      u := u.(machineType := machineType);
    }
    if |u.metadata| < 1 {
      return Err(IndexError(OutOfRange));
    }
    if u.metadata[0].value != startup {
      u := u.(metadata := u.metadata[0 := u.metadata[0].(value := startup)]);
    }
    if |u.metadata| < 2 {
      return Err(IndexError(OutOfRange));
    }
    if u.metadata[1].value != shutdown {
      u := u.(metadata := u.metadata[1 := u.metadata[1].(value := shutdown)]);
    }
    u := u.(labels := labels);
    ghost var want := Reconciled(t, newDisks, machineType, startup, shutdown, labels).value;
    assert u.disks == want.disks;
    assert u.metadata == want.metadata;
    return Ok(u);
  }

  /**
   * __update_template: delete the old template first. If the delete
   * operation fails the fetched template is returned unchanged; if the
   * delete request itself is refused, that error propagates. After the
   * delete nothing is rolled back: the disk list, the reconciliation, the
   * insert and the final read can each still fail.
   */
  method UpdateTemplate(p: Provider, t: Template, machineType: string, image: string, disks: Option<seq<DiskParams>>,
                        key: KeyRef, startup: string, shutdown: string, labels: map<string, string>)
    returns (r: Result<Template>)
    modifies p
    ensures r.Err? && r.error.Internal? ==> r.error.kind == OperationFailed
    ensures old(p.log) <= p.log && |p.log| > |old(p.log)| && p.log[|old(p.log)|] == DeleteTemplate(t.name)
    ensures var del := DeleteTemplate(t.name);
      del in p.faults && p.faults[del].Failed? ==>
        r == Ok(t) && p.State() == old(p.State()).(log := old(p.log) + [del])
    ensures var del := DeleteTemplate(t.name);
      (del in p.faults && p.faults[del].Rejected?) || (del !in p.faults && t.name !in old(p.templates)) ==>
        r.Err? && r.error.ApiError? && p.State() == old(p.State()).(log := old(p.log) + [del])
    ensures var del := DeleteTemplate(t.name);
      var rec := Reconciled(t, [], machineType, startup, shutdown, labels);
      del !in p.faults && t.name in old(p.templates) ==>
        (r.Ok? <==> disks == Some([]) && rec.Ok? && InsertTemplate(rec.value) !in p.faults &&
                    GetTemplate(t.name) !in p.faults) &&
        (r.Ok? ==> r.value == rec.value && p.templates == old(p.templates)[t.name := rec.value]) &&
        (r.Err? ==> p.templates == old(p.templates) - {t.name} ||
                    (rec.Ok? && p.templates == old(p.templates)[t.name := rec.value]))
    ensures p.State() == old(p.State()).(templates := p.templates, log := p.log)
  {
    ghost var s0 := p.State();
    var f := p.DeleteTemplateCall(t.name);
    if f.Some? && f.value.Rejected? {
      return Err(CallError(f.value));
    }
    if f.Some? {
      return Ok(t);
    }
    ghost var s1 := p.State();
    r := Reinsert(p, t, disks, machineType, startup, shutdown, labels);
    ghost var rec := Reconciled(t, [], machineType, startup, shutdown, labels);
    if rec.Ok? {
      RemovedThenPut(s0.templates, t.name, rec.value);
    }
    LogHead(s0.log, s1.log, p.log, DeleteTemplate(t.name));
  }

  /**
   * What `__update_template` does once the old template is deleted: build
   * the disk list, reconcile, insert the result, wait, and read it back.
   */
  method Reinsert(p: Provider, t: Template, disks: Option<seq<DiskParams>>, machineType: string,
                  startup: string, shutdown: string, labels: map<string, string>)
    returns (r: Result<Template>)
    modifies p
    requires t.name !in p.templates
    ensures r.Err? && r.error.Internal? ==> r.error.kind == OperationFailed
    ensures p.State() == old(p.State()).(templates := p.templates, log := p.log) && old(p.log) <= p.log
    ensures var rec := Reconciled(t, [], machineType, startup, shutdown, labels);
      (r.Ok? <==> disks == Some([]) && rec.Ok? && InsertTemplate(rec.value) !in p.faults &&
                  GetTemplate(t.name) !in p.faults) &&
      (r.Ok? ==> r.value == rec.value && p.templates == old(p.templates)[t.name := rec.value]) &&
      (r.Err? ==> p.templates == old(p.templates) || (rec.Ok? && p.templates == old(p.templates)[t.name := rec.value]))
  {
    var built := FiveArgumentDisks(disks);
    if built.Err? {
      return Err(built.error);
    }
    var rec := Reconcile(t, built.value, machineType, startup, shutdown, labels);
    if rec.Err? {
      return Err(rec.error);
    }
    var f := p.InsertTemplateCall(rec.value);
    var waited := Wait(f);
    if waited.Err? {
      return Err(waited.error);
    }
    r := p.GetTemplateCall(t.name);
  }

  /** Deleting a key and then putting it back with a value is putting it with that value. */
  lemma RemovedThenPut(m: map<string, Template>, k: string, v: Template)
    ensures (m - {k})[k := v] == m[k := v]
  {
  }

  /**
   * As written, an update that gets past the delete succeeds only for a
   * template without disks and an empty desired disk list: any desired disk
   * raises TypeError, and any existing disk then indexes an empty list.
   */
  lemma UpdateNeedsNoDisks(t: Template, disks: Option<seq<DiskParams>>, machineType: string, startup: string, shutdown: string,
                           labels: map<string, string>)
    requires FiveArgumentDisks(disks).Ok?
    requires Reconciled(t, FiveArgumentDisks(disks).value, machineType, startup, shutdown, labels).Ok?
    ensures disks == Some([]) && t.disks == []
  {
  }
}
