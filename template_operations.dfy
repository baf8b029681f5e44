/**
 * Instance template operations behind the HTTP API
 * (shared/core/instance_template_operations.py). Create and update always
 * mint a fresh KMS key named after the template first, then check whether
 * the template exists: create needs it absent, update and delete need it
 * present.
 */
module TemplateOperations {
  import opened Common
  import opened Cloud
  import Entities
  import Kms
  import TemplateLib

  function TemplateExists(name: string): Error {
    Internal(InstanceTemplateAlreadyExists, "Instance template " + name + " already exists")
  }

  function TemplateNotFound(name: string): Error {
    Internal(InstanceTemplateNotFound, "Instance template " + name + " does not exist")
  }

  /** The key a create or update mints: in the ring of the template's name, with the call's suffix. */
  function MintedKey(project: string, region: string, template: string, suffix: string): string {
    Kms.KeyPath(project, region, Kms.RingId(template), Kms.KeyId(template, suffix))
  }

  /** The image lookup finds the family's newest image. */
  predicate ImageFound(p: Provider, t: Entities.TemplateSpec)
    reads p
  {
    GetImage(t.imageProject, t.imageFamily) !in p.faults && (t.imageProject, t.imageFamily) in p.images
  }

  /** Only templates, the KMS state and the log differ, and the log only grew. */
  predicate OnlyTemplatesAndKmsChanged(s0: CloudState, s1: CloudState) {
    s1 == s0.(templates := s1.templates, keyRings := s1.keyRings, keys := s1.keys, policies := s1.policies, log := s1.log) &&
    s0.log <= s1.log
  }

  /** The frame of a step that only reads, or only changes templates, extends the frame so far. */
  lemma TemplateStep(s0: CloudState, s1: CloudState, s2: CloudState)
    requires OnlyTemplatesAndKmsChanged(s0, s1)
    requires s2 == s1.(templates := s2.templates, log := s2.log) && s1.log <= s2.log
    ensures OnlyTemplatesAndKmsChanged(s0, s2) && s2.keys == s1.keys
  {
  }

  /**
   * create_instance_template: key, image, lookup, then create. An existing
   * template is an error that leaves the templates alone, but the key was
   * minted all the same.
   */
  method CreateInstanceTemplate(p: Provider, t: Entities.TemplateSpec, region: string, startup: string, shutdown: string,
                                suffix: string, storageAccount: Option<string>, email: Option<string>)
    returns (r: Result<Unit>, ghost keyMinted: bool)
    modifies p
    ensures OnlyTemplatesAndKmsChanged(old(p.State()), p.State())
    ensures var key := MintedKey(p.project, region, t.name, suffix);
      keyMinted ==> key !in old(p.keys) && key in p.keys
    ensures !keyMinted ==>
      r.Err? && p.templates == old(p.templates) &&
      r.error in {Kms.RingCreationError(p.project, Kms.RingId(t.name)),
                  Kms.KeyCreationError(p.project, Kms.RingId(t.name), Kms.KeyId(t.name, suffix))}
    ensures r.Ok? ==> keyMinted
    ensures keyMinted && !ImageFound(p, t) ==>
      r.Err? && r.error.Internal? && r.error.kind == ImageNotFound && p.templates == old(p.templates)
    ensures keyMinted && ImageFound(p, t) && old(TemplateFound(p, t.name)) ==> r == Err(TemplateExists(t.name))
    ensures |p.log| > |old(p.log)| && p.log[|old(p.log)|] == GetKeyRing(Kms.RingPath(p.project, region, Kms.RingId(t.name)))
    ensures var key := MintedKey(p.project, region, t.name, suffix);
      r.Ok? || r == Err(TemplateExists(t.name)) ==> key !in old(p.keys) && key in p.keys
    ensures r == Err(TemplateExists(t.name)) ==> t.name in old(p.templates) && p.templates == old(p.templates)
    ensures r.Ok? ==>
      email.Some? && t.disks == Some([]) && t.name !in old(p.templates) &&
      p.templates == old(p.templates)[t.name := TemplateLib.NewTemplate(t.name, t.machineType, t.labels, [], email.value, startup, shutdown)]
  {
    ghost var s0 := p.State();
    var key := Kms.SetupEncryptionKeys(p, t.name, region, suffix, storageAccount);
    ghost var s1 := p.State();
    if key.Err? {
      return Err(key.error), false;
    }
    keyMinted := true;
    var image := TemplateLib.GetImageFromFamily(p, t.imageProject, t.imageFamily);
    ghost var s2 := p.State();
    TemplateStep(s0, s1, s2);
    if image.Err? {
      return Err(image.error), true;
    }
    var template := TemplateLib.GetInstanceTemplate(p, t.name);
    ghost var s3 := p.State();
    TemplateStep(s0, s2, s3);
    if template.Some? {
      return Err(TemplateExists(t.name)), true;
    }
    var created := TemplateLib.CreateTemplate(p, t.name, t.machineType, image.value, t.disks, key.value,
                                              startup, shutdown, t.labels, email);
    TemplateStep(s0, s3, p.State());
    if created.Err? {
      return Err(created.error), true;
    }
    return Ok(Unit), true;
  }

  /**
   * update_instance_template: key, image, lookup, then update. A missing
   * template is an error that leaves the templates alone; an update either
   * keeps the template (its delete operation failed) or replaces it with
   * its reconciliation.
   */
  method UpdateInstanceTemplate(p: Provider, t: Entities.TemplateSpec, region: string, startup: string, shutdown: string,
                                suffix: string, storageAccount: Option<string>)
    returns (r: Result<Unit>, ghost keyMinted: bool)
    modifies p
    ensures OnlyTemplatesAndKmsChanged(old(p.State()), p.State())
    ensures var key := MintedKey(p.project, region, t.name, suffix);
      keyMinted ==> key !in old(p.keys) && key in p.keys
    ensures !keyMinted ==>
      r.Err? && p.templates == old(p.templates) &&
      r.error in {Kms.RingCreationError(p.project, Kms.RingId(t.name)),
                  Kms.KeyCreationError(p.project, Kms.RingId(t.name), Kms.KeyId(t.name, suffix))}
    ensures r.Ok? ==> keyMinted
    ensures keyMinted && !ImageFound(p, t) ==>
      r.Err? && r.error.Internal? && r.error.kind == ImageNotFound && p.templates == old(p.templates)
    ensures keyMinted && ImageFound(p, t) && !old(TemplateFound(p, t.name)) ==> r == Err(TemplateNotFound(t.name))
    ensures |p.log| > |old(p.log)| && p.log[|old(p.log)|] == GetKeyRing(Kms.RingPath(p.project, region, Kms.RingId(t.name)))
    ensures var key := MintedKey(p.project, region, t.name, suffix);
      r.Ok? || r == Err(TemplateNotFound(t.name)) ==> key !in old(p.keys) && key in p.keys
    ensures r == Err(TemplateNotFound(t.name)) ==> p.templates == old(p.templates)
    ensures r.Ok? ==>
      t.name in old(p.templates) &&
      (var found := old(p.templates)[t.name];
       var rec := TemplateLib.Reconciled(found, [], t.machineType, startup, shutdown, t.labels);
       p.templates == old(p.templates) ||
       (t.disks == Some([]) && rec.Ok? && p.templates == old(p.templates)[found.name := rec.value]))
  {
    ghost var s0 := p.State();
    var key := Kms.SetupEncryptionKeys(p, t.name, region, suffix, storageAccount);
    ghost var s1 := p.State();
    if key.Err? {
      return Err(key.error), false;
    }
    keyMinted := true;
    var image := TemplateLib.GetImageFromFamily(p, t.imageProject, t.imageFamily);
    ghost var s2 := p.State();
    TemplateStep(s0, s1, s2);
    if image.Err? {
      return Err(image.error), true;
    }
    var template := TemplateLib.GetInstanceTemplate(p, t.name);
    ghost var s3 := p.State();
    TemplateStep(s0, s2, s3);
    if template.None? {
      return Err(TemplateNotFound(t.name)), true;
    }
    var updated := TemplateLib.UpdateTemplate(p, template.value, t.machineType, image.value, t.disks, key.value,
                                              startup, shutdown, t.labels);
    TemplateStep(s0, s3, p.State());
    if updated.Err? {
      return Err(updated.error), true;
    }
    return Ok(Unit), true;
  }

  /** The template lookup of a delete, as both versions below make it. */
  predicate TemplateFound(p: Provider, name: string)
    reads p
  {
    GetTemplate(name) !in p.faults && name in p.templates
  }

  /**
   * delete_instance_template as written: the helper it calls,
   * `delete_template`, is not defined in shared/lib/template.py, so a
   * template that exists is never deleted.
   */
  method DeleteInstanceTemplate(p: Provider, name: string) returns (r: Result<Unit>)
    modifies p
    ensures p.State() == old(p.State()).(log := old(p.log) + [GetTemplate(name)])
    ensures r.Err?
    ensures !old(TemplateFound(p, name)) ==> r == Err(TemplateNotFound(name))
    ensures old(TemplateFound(p, name)) ==> r == Err(NameError("delete_template"))
  {
    var template := TemplateLib.GetInstanceTemplate(p, name);
    if template.None? {
      return Err(TemplateNotFound(name));
    }
    return Err(NameError("delete_template"));
  }

  /**
   * delete_instance_template with the library's delete_instance_template in
   * place of the missing helper: a missing template is NotFound; otherwise
   * exactly that template is deleted.
   */
  method DeleteInstanceTemplateIntended(p: Provider, name: string) returns (r: Result<Unit>)
    modifies p
    ensures p.State() == old(p.State()).(templates := p.templates, log := p.log)
    ensures !old(TemplateFound(p, name)) ==>
      r == Err(TemplateNotFound(name)) && p.log == old(p.log) + [GetTemplate(name)] && p.templates == old(p.templates)
    ensures old(TemplateFound(p, name)) ==>
      p.log == old(p.log) + [GetTemplate(name), DeleteTemplate(name)] &&
      (r.Ok? <==> DeleteTemplate(name) !in p.faults)
    ensures r.Ok? ==> name in old(p.templates) && p.templates == old(p.templates) - {name}
    ensures r.Err? ==> p.templates == old(p.templates)
  {
    var template := TemplateLib.GetInstanceTemplate(p, name);
    if template.None? {
      return Err(TemplateNotFound(name));
    }
    r := TemplateLib.DeleteInstanceTemplate(p, name);
  }
}
