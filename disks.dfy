/**
 * Attached-disk records for instance templates and standalone zonal disks
 * (shared/lib/disks.py).
 */
module Disks {
  import opened Common
  import opened JsonValue
  import opened Cloud
  import Text

  /** Reading `.name` off a string key. */
  const NoNameOnStr := "'str' object has no attribute 'name'"

  /**
   * The kms_key_name a truthy key yields: `key.get("name")` for a dict and
   * `key.name` for anything else.
   */
  function KmsKeyName(key: KeyRef): (r: Result<Option<string>>)
    requires KeyTruthy(key)
    ensures r.Err? <==> key.KeyText?
  {
    match key
    case KeyDict(entries) => Ok(if "name" in entries then Some(entries["name"]) else None)
    case KeyObject(name) => Ok(Some(name))
    case KeyText(_) => Err(AttributeError(NoNameOnStr))
  }

  /** disk_from_image: an attached disk initialised from an image, encrypted with the key when there is one. */
  function DiskFromImage(diskType: Json, sizeGb: Json, key: KeyRef, boot: Json, sourceImage: string, autoDelete: Json)
    : (r: Result<AttachedDisk>)
    ensures r.Err? <==> KeyTruthy(key) && key.KeyText?
    ensures !KeyTruthy(key) ==> r.Ok? && r.value.encryption == Unencrypted
    ensures key.KeyDict? && KeyTruthy(key) ==>
      r.Ok? && r.value.encryption.KmsKey? &&
      (r.value.encryption.kmsKeyName.Some? <==> "name" in key.entries) &&
      ("name" in key.entries ==> r.value.encryption.kmsKeyName.value == key.entries["name"])
    ensures key.KeyObject? && KeyTruthy(key) ==> r.Ok? && r.value.encryption == KmsKey(Some(key.name))
    ensures r.Ok? ==>
      r.value.sourceImage == sourceImage && r.value.sizeGb == sizeGb && r.value.diskType == diskType &&
      r.value.autoDelete == autoDelete && r.value.boot == boot
  {
    var encryption :-
      if KeyTruthy(key) then
        var name :- KmsKeyName(key);
        Ok(KmsKey(name))
      else Ok(Unencrypted);
    Ok(AttachedDisk(encryption, sourceImage, sizeGb, diskType, autoDelete, boot, ""))
  }

  /** The diskTypes URL `__create_disk` sets on the new disk. */
  function DiskTypeUrl(project: string, zone: string, diskType: string): string {
    "projects/" + project + "/zones/" + zone + "/diskTypes/" + diskType
  }

  /** The disk URL `__create_disk` returns. */
  function DiskUrl(project: string, zone: string, name: string): string {
    "projects/" + project + "/zones/" + zone + "/disks/" + name
  }

  /** The disk URL ends with the disk's name: its last '/' segment is the name the disk was created with. */
  lemma DiskUrlNamesDisk(project: string, zone: string, name: string)
    requires NoSlash(name)
    ensures Text.Last(Text.Split(DiskUrl(project, zone, name), '/')) == name
  {
    var prefix := "projects/" + project + "/zones/" + zone + "/disks";
    assert DiskUrl(project, zone, name) == prefix + ['/'] + name;
    Text.SplitAppend(prefix, '/', name);
  }

  /**
   * `__create_disk`: inserts the disk with its diskTypes URL, size, image and
   * name, waits for the operation (re-raising its error), and answers the
   * disk's URL.
   */
  method CreateDisk(p: Provider, zone: string, name: string, diskType: string, sizeGb: int, sourceImage: string)
    returns (r: Result<string>)
    modifies p
    ensures var d := Disk(name, DiskTypeUrl(p.project, zone, diskType), sizeGb, sourceImage);
      p.log == old(p.log) + [InsertDisk(d)] &&
      (r.Ok? <==> InsertDisk(d) !in p.faults && name !in old(p.disks)) &&
      (r.Ok? ==> r.value == DiskUrl(p.project, zone, name) && p.State() == old(p.State()).(disks := old(p.disks)[name := d], log := p.log)) &&
      (r.Err? ==> p.State() == old(p.State()).(log := p.log))
  {
    var d := Disk(name, DiskTypeUrl(p.project, zone, diskType), sizeGb, sourceImage);
    var f := p.InsertDiskCall(d);
    var waited := Wait(f);
    if waited.Err? {
      return Err(waited.error);
    }
    return Ok(DiskUrl(p.project, zone, d.name));
  }
}
