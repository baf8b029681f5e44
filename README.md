# Couchbase cluster orchestrator on Google Cloud, modelled in Dafny

The orchestrator provisions and maintains Couchbase clusters on Google Cloud
Platform. A cluster definition (JSON from the API, a YAML file or command-line
arguments) is parsed and validated into cluster and template parameters. The
orchestrator then converges the project's resources towards it, in a fixed
order:

- a Secret Manager secret holding the administrator credentials;
- a fresh KMS key in the cluster's key ring, usable by the storage service account;
- a storage bucket encrypted with that key, holding the rendered startup and shutdown scripts;
- an instance template;
- a regional managed instance group, grown, shrunk or rolled instance by instance to the new template;
- a firewall rule opening the Couchbase console port.

An HTTP API runs these operations in worker threads. It records each job in a
registry and writes one terminal status per run. Jobs can be listed with
conjunctive filters.

The model covers:

- the shared library (`shared/lib`, `shared/core`, `shared/discovery`);
- the older command-line code paths (`lib`, `discovery`, `cmd/update_cluster.py`, `core/create_cluster.py`);
- the definition parsers (`utils/parse_requests.py`, `utils/json.py`, `utils/yaml.py`, `utils/args.py`) and the template parameter entity;
- the job registries, the worker `run()` bodies and the job routes' filter and lookup.

The cloud is modelled by the class `Cloud.Provider`:

- one map per resource kind;
- a log of every request made;
- a fixed set of requests the provider refuses;
- oracles for serial-console output and group stability.

Each SDK call is a method of that class and states its whole new state.
Operations that change cloud or registry state are methods with `modifies`
clauses. Their `ensures` state:

- the new state;
- the requests issued (in order, for the SDK wrappers and most operations);
- how far a multi-step operation got before it stopped;
- the error each failure path raises.

Pure computations are functions with lemmas about them. These cover:

- instance names and indices;
- master hostnames;
- exit-status scanning of the serial console;
- the Base64 payload;
- label maps;
- filters.

Defects in the code are kept as the code behaves. They become error outcomes
of the `Common.Error` datatype (`TypeError`, `NameError`, `AttributeError`,
`KeyError`, `Exit`). Two of them are also given a corrected member (see
"## Findings").

## Model

| member | source | states |
|---|---|---|
| Common.Message | utils/exceptions.py:7-12 | an InternalException's message is the given one when it is not empty and the default text otherwise, so it is never empty |
| Text.ZeroPad3Parses | shared/lib/regional_managed_instance.py:232 | a `{:03d}` ordinal is all digits, at least three of them (exactly three below 1000), and `int()` reads the ordinal back |
| Text.ParseInt | shared/lib/regional_managed_instance.py:376 | on the index part of an instance name, `int(s)` succeeds exactly on a non-empty run of ASCII digits and gives their decimal value |
| Text.FromEnd | shared/lib/regional_managed_instance.py:218-220 | `parts[-k]` is an IndexError exactly when there are fewer than `k` parts, and otherwise the k-th part from the end |
| Text.SplitJoin | shared/lib/regional_managed_instance.py:218 | no part of `s.split(c)` contains `c`, and joining the parts with `c` gives `s` back |
| InstanceNaming.NameAndZone | shared/lib/regional_managed_instance.py:218-220 | the instance name and zone can be read from a URL exactly when it has at least three '/'-separated parts |
| InstanceNaming.MasterHostname | shared/lib/regional_managed_instance.py:215-221 | the seed's hostname exists exactly when its name and zone can be read from its URL |
| InstanceNaming.IndexOf | shared/lib/regional_managed_instance.py:376 | a parsed index comes from an all-digit last '-' part of the instance name |
| InstanceNaming.SplitInstanceUrl | shared/lib/regional_managed_instance.py:218-220 | the split of an instance URL ends with its zone, "instances" and its name |
| InstanceNaming.HostnameOfInstanceUrl | shared/lib/regional_managed_instance.py:218-221 | for a URL of the group's own form the hostname is `<name>.<zone>.c.<project>.internal` |
| InstanceNaming.IndexOfInstanceUrl | shared/lib/regional_managed_instance.py:376 | the index parsed from the URL of `<group>-<index:03d>` is that index, whatever '-' the group name holds (the name round-trips) |
| InstanceNaming.InstanceNameInjective | shared/lib/regional_managed_instance.py:232 | distinct indices give distinct instance names |
| SerialScan.DigitRun | shared/lib/regional_managed_instance.py:309 | over ASCII digits, the greedy `\d+` capture is the longest all-digit prefix |
| SerialScan.FindExitStatuses | shared/lib/regional_managed_instance.py:309 | every captured exit status is a non-empty run of ASCII digits |
| SerialScan.Judge | shared/lib/regional_managed_instance.py:309-316 | no match means keep polling; otherwise success exactly when the last match is "0" |
| SerialScan.MarkerHasNoBorder | shared/lib/regional_managed_instance.py:309 | the pattern's literal text overlaps no shifted copy of itself, so matches cannot overlap |
| SerialScan.ReportAlone | shared/lib/regional_managed_instance.py:309 | a single report of a status is one match, of that status |
| SerialScan.FindAfterReport | shared/lib/regional_managed_instance.py:309 | appending one more report adds exactly its status as the last match, whatever the console printed before |
| SerialScan.LatestReportDecides | shared/lib/regional_managed_instance.py:313 | the verdict follows the most recent report only: earlier failures do not count |
| SerialScan.NoMarkerNoStatus | shared/lib/regional_managed_instance.py:311-312 | output that never contains the pattern's text has no status yet, so polling goes on |
| Base64.Utf8Ascii | shared/discovery/secrets_manager.py:155 | `payload.encode('utf-8')` of an ASCII string is its code points, one byte per character |
| Base64.Encode | shared/discovery/secrets_manager.py:155 | `b64encode` yields four characters per started three-byte block |
| Base64.DecodeEncode | shared/discovery/secrets_manager.py:155 | decoding undoes the encoding on every byte string (round trip) |
| Base64.EncodeAlphabet | shared/discovery/secrets_manager.py:155 | every encoded character is in the RFC 4648 alphabet or is the '=' pad |
| JsonValue.Contains | utils/parse_requests.py:13 | `key in v` on a dictionary is key membership; on a value that cannot be searched it raises |
| JsonValue.Index | utils/parse_requests.py:20 | `v[key]` succeeds exactly on a dictionary holding the key and gives its value; a missing key is a KeyError |
| Secrets.CredentialsPayloadDecodes | shared/discovery/secrets_manager.py:152-157 | the stored payload decodes to exactly the UTF-8 bytes of "username:password" |
| Secrets.CheckSecret | shared/discovery/secrets_manager.py:102-112 | one read; the secret's path exactly when the read succeeds and the secret exists, None on any failure; nothing else changes |
| Secrets.MakeSecret | shared/discovery/secrets_manager.py:116-137 | one create request; a new empty secret when it goes through; an error or an empty answer exits with status 1 and changes nothing |
| Secrets.AddLatestSecretVersion | shared/discovery/secrets_manager.py:142-171 | one request adding exactly one version with the Base64 payload; an error or an empty answer exits with status 1 |
| Secrets.SetupSecretManager | shared/discovery/secrets_manager.py:16-53 | without credentials a missing secret exits and an existing one is left as it is; with credentials a missing secret is created, and then exactly one version with the credentials is appended; the check comes first; the answer is `<cluster>-admin-creds` |
| Secrets.CreateAndAdd | shared/discovery/secrets_manager.py:42-47 | the create-then-add branch: on success the secret holds exactly one version, the credentials |
| LegacySecrets.RawMatchesEncoded | lib/secrets_manager.py:50 | the raw bytes this client stores are the bytes the Base64 text of the other client decodes to |
| LegacySecrets.MakeSecret | lib/secrets_manager.py:25-37 | one create request; success exactly when the client accepts it and the secret is new, which then exists with no version; a client error is raised with nothing changed |
| LegacySecrets.AddVersion | lib/secrets_manager.py:41-60 | one request adding exactly one version with the raw payload; a client error is raised; an empty answer fails when its name is logged, after the version was added |
| Kms.KeyPathInjective | shared/lib/kms.py:29-30 | two key paths in one ring are equal exactly when their key ids are |
| Kms.ReadKeyRing | shared/lib/kms.py:109-132 | one read; the ring's path exactly when the read succeeds, the ring exists and the answer is not empty; None otherwise; nothing else changes |
| Kms.MakeKeyRing | shared/lib/kms.py:79-105 | one create request; success exactly when it goes through, the ring is new and the answer names the ring, and then the ring exists; every failure is the typed ring-creation error, an empty answer included, and only a refused or duplicate request leaves the rings unchanged |
| Kms.AssignPermissionToStorage | shared/lib/kms.py:173-194 | on success exactly one encrypt/decrypt binding for the storage account is appended to the key's policy; a failure changes no policy, and a failing write is the typed permission error |
| Kms.CreateSymmetricKey | shared/lib/kms.py:135-169 | on success the key is new, is created as a symmetric encrypt/decrypt key, and the storage binding is appended to its policy; every failure, the grant's included, is the typed key-creation error |
| Kms.SetupEncryptionKeys | shared/lib/kms.py:14-31 | the ring is read first and created only when the read gave nothing; a ring creation that answers nothing is the ring-creation error; on success a key that did not exist before now does, named with this call's suffix, and carries the storage grant; the only errors are the two typed ones |
| Kms.SetupKeyEnabled | shared/lib/kms.py:226-228 | the key setup leaves behind is enabled and is a symmetric encrypt/decrypt key |
| Kms.DistinctSuffixesDistinctKeys | shared/lib/kms.py:28-30 | two setups with different suffixes name two different keys, so no key is reused |
| KmsDiscovery.MakeKeyRing | discovery/kms.py:54-83 | one create request; success exactly when it goes through and the ring is new; an empty answer is None; any error exits with status 1 and changes nothing |
| KmsDiscovery.AssignPermissionToRing | discovery/kms.py:141-169 | success exactly when the policy read and write go through on an existing resource; the ring's policy then gains exactly one storage binding; an error is raised with no policy changed |
| KmsDiscovery.CreateSymmetricKey | discovery/kms.py:109-138 | on success the key is new and created; an empty answer stops before the grant; otherwise the storage binding goes on the ring and the key is answered; any error exits with status 1 |
| KmsDiscovery.GetSymmetricKey | discovery/kms.py:173-195 | one read; success exactly when it goes through and the key exists; an error is raised, not swallowed; an empty answer is None |
| KmsDiscovery.SetupEncryptionKeys | discovery/kms.py:14-30 | the ring is read first and created only when the read gave nothing; on success a new key named with this call's suffix exists; the only error is the process exit |
| LegacyKms.MakeKeyRing | lib/kms.py:5-29 | one create request; the ring exists after it exactly when the request goes through on a new ring; the client's error is raised; an empty answer fails on its name after the ring was made |
| LegacyKms.AssignPermissionToStorage | lib/kms.py:99-119 | success exactly when the policy read and write go through; the key's policy then gains exactly one storage binding; errors are the client's with no policy changed |
| LegacyKms.CreateSymmetricKey | lib/kms.py:61-96 | on success the key is new, created and granted to the storage account, and is answered (None for an empty answer); a failed creation changes neither keys nor policies |
| LegacyKms.GetSymmetricKey | lib/kms.py:123-148 | one read; the key exactly when the read succeeds, the key exists and the answer is not empty; None on any failure |
| Storage.BucketKeyName | shared/lib/storage.py:136-142 | a string key is its own name, a dict's name is its "name" entry (a missing entry raises KeyError), anything else answers its `name` attribute, and None has none |
| Storage.BucketKeyMatchesDiskKey | shared/lib/storage.py:136-143 | a dict or message key names the same KMS key as the default key of the bucket and as the encryption key of the template's disks |
| Storage.CreateIfAbsent | shared/lib/storage.py:120-130 | the bucket is read first and created in the region only when that read fails; only that bucket changes; a failed creation ends the call |
| Storage.SetDefaultKey | shared/lib/storage.py:132-146 | the bucket is read again and patched with the resolved key as its default KMS key; success exactly when the read, the name and the patch all go through; only that bucket changes |
| Storage.EnsureBucket | shared/lib/storage.py:120-146 | the read comes first and the creation second exactly when the read failed; on success the answer is the stored bucket, the old one or a new one in the region, with the resolved default key |
| Storage.SetupCloudStorage | shared/lib/storage.py:18-39 | on success the compute account is configured and exactly one objectViewer binding is appended to the bucket's policy, whose member is the dictionary `{"user": email}`; the bucket keeps the resolved default key; no other bucket changes |
| Storage.SetupAppendsWithoutDedup | shared/lib/storage.py:34 | a second setup grants the same account again: the policy then holds the binding twice |
| Storage.DistroOf | shared/lib/storage.py:224-236 | debian and ubuntu share one script set; rhel and suse have their own; any other family raises the unsupported-family error |
| Storage.DistroOfPrefix | shared/lib/storage.py:224 | only the part of the image family before the first '-' decides the scripts |
| Storage.ScriptNamesDistinct | shared/lib/storage.py:224-284 | each family has its own startup and shutdown script names, and no startup script shares a name with a shutdown script |
| Storage.StartupRender | shared/lib/storage.py:244-247 | the rendering succeeds exactly when the cluster has nodes; without nodes the master lookup raises IndexError |
| Storage.StartupRenderNodes | shared/lib/storage.py:244-255 | the master is node 000 with its internal hostname; the peers are exactly the other nodes' hostnames in index order; the master is never its own peer |
| Storage.HostnameInjective | shared/lib/storage.py:246 | two instance names in one project with the same internal hostname are the same name |
| Storage.UploadStartupScript | shared/lib/storage.py:219-262 | an unknown family or an empty cluster fails before any call; otherwise one upload of the family's startup script, whose public URL is answered and which the bucket then holds |
| Storage.UploadShutdownScript | shared/lib/storage.py:266-300 | an unknown family fails before any call; otherwise one upload of the family's shutdown script, whose public URL is answered and which the bucket then holds |
| Storage.UploadScripts | shared/lib/storage.py:41-53 | success exactly when the family is known, the cluster has nodes, the bucket exists and both uploads go through; the bucket then holds both scripts and the URLs point at them |
| LegacyStorage.Exists | lib/storage.py:8 | a bucket read answers presence; a not-found error answers False; any other error is raised |
| LegacyStorage.CreateBucketIfAbsent | lib/storage.py:4-11 | an existing bucket is left as it is; a missing one is created with no location; on success the bucket exists |
| LegacyStorage.UploadStartupScript | lib/storage.py:89-109 | the same script choice as the cluster library; an unknown family raises TypeError, because a string is raised, before any call; on success the bucket exists and the script was uploaded last |
| Disks.KmsKeyName | shared/lib/disks.py:110-115 | a truthy key yields a name, except a plain string, which has no `name` attribute |
| Disks.DiskFromImage | shared/lib/disks.py:83-133 | an attached disk with the given image, size, type, boot and auto-delete flags; unencrypted without a key; a dict key gives its "name" entry, or nothing when it has none; any other key gives its `name` |
| Disks.DiskUrlNamesDisk | shared/lib/disks.py:74 | the disk URL's last path segment is the disk's name |
| Disks.CreateDisk | shared/lib/disks.py:35-76 | one insert with the zone's disk-type URL; success exactly when it goes through on a new disk, which then exists, and the disk URL is answered; a failure changes nothing |
| Firewall.RuleFor | shared/lib/firewall.py:73-86 | the rule: ingress TCP on port 8091 from 0.0.0.0/0 to the couchbase-server tag on the given network |
| Firewall.CheckFirewallRule | shared/lib/firewall.py:99-106 | True exactly when reading the rule succeeds; nothing else changes |
| Firewall.CreateFirewallRule | shared/lib/firewall.py:61-95 | one insert; success exactly when it goes through on a new rule, which then exists; a failure changes nothing |
| Firewall.LegacyCreateFirewallRule | lib/firewall.py:14-48 | the same rule and insert; the operation's own error is raised |
| Firewall.CheckFirewallRuleExists | shared/lib/firewall.py:41-43 | always fails with NameError, because the helper it calls is not defined |
| Firewall.SetupFirewall | shared/lib/firewall.py:13-28 | a readable rule `<cluster>-firewall` is left exactly as it is; otherwise the rule is created on the default network; on success the rule exists; an existing rule, readable or not, is never modified, and a failed run changes no rule |
| Firewall.LegacySetupFirewall | cmd/update_cluster.py:181-188 | the same check-then-create with the older helpers, whose errors are the client's; an existing rule is never modified and a failed run changes no rule |
| TemplateLib.GetImageFromFamily | shared/lib/images.py:29-46 | one read; the family's newest image exactly when the read succeeds; any failure is the image-not-found error |
| TemplateLib.FiveArgumentDisks | shared/lib/template.py:110 | the disk list maps only when it is empty; the first disk raises TypeError, because `disk_from_image` is called without its sixth argument; an absent list is not iterable |
| TemplateLib.CreateTemplate | shared/lib/template.py:61-150 | a non-empty disk list or an unset service-account variable fails before any call; otherwise one insert of the template with its machine type, labels, account and the two script URLs as metadata; success exactly when the insert and the read-back go through, and the template is answered |
| TemplateLib.GetInstanceTemplate | shared/lib/template.py:234-255 | one read; the template exactly when it succeeds and the template exists; any error reads as None |
| TemplateLib.DeleteInstanceTemplate | shared/lib/template.py:269-280 | one delete; success exactly when it goes through on an existing template, which is then gone; a missing one fails with NotFound and nothing changes |
| TemplateLib.ReconciledFields | shared/lib/template.py:186-216 | reconciliation succeeds exactly when the desired disk list covers the existing disks and there are two metadata items; it takes each disk's image, size and type from the desired disk and keeps its key and flags; it sets the machine type, the two script URLs and the labels; everything else is kept |
| TemplateLib.ReconcileIdempotent | shared/lib/template.py:189-216 | reconciling a reconciled template with the same wishes changes nothing |
| TemplateLib.UpdateOfCreatedTemplate | shared/lib/template.py:124-140 | updating a template this code created is creating it afresh with the new machine type, script URLs and labels |
| TemplateLib.Reconcile | shared/lib/template.py:189-216 | the loop over the fetched disks and the three field checks compute exactly the reconciliation |
| TemplateLib.UpdateTemplate | shared/lib/template.py:156-230 | the old template is deleted first; a failed delete operation answers the fetched template unchanged; a refused delete is raised; after the delete the template is either gone or replaced by its reconciliation, which is then answered |
| TemplateLib.Reinsert | shared/lib/template.py:183-230 | after the delete: success exactly when the disk list maps, the reconciliation succeeds and the insert and read-back go through; the template is then its reconciliation |
| TemplateLib.UpdateNeedsNoDisks | shared/lib/template.py:186-198 | an update that gets past the delete succeeds only with an empty desired disk list and a template without disks |
| TemplateOperations.CreateInstanceTemplate | shared/core/instance_template_operations.py:9-39 | the key step runs first: when it fails its typed error is answered with the templates unchanged, and when it succeeds a fresh key exists whatever follows; then a missing image is an image error and an existing template is an error, both with the templates unchanged; on success the new template is stored exactly as created |
| TemplateOperations.UpdateInstanceTemplate | shared/core/instance_template_operations.py:41-70 | the key step runs first: when it fails its typed error is answered with the templates unchanged, and when it succeeds a fresh key exists whatever follows; then a missing image is an image error and a missing template is an error, both with the templates unchanged; on success the template is kept or replaced by its reconciliation |
| TemplateOperations.DeleteInstanceTemplate | shared/core/instance_template_operations.py:71-84 | as written: a missing template is NotFound; an existing one fails with NameError, because the imported `delete_template` does not exist, and nothing is deleted |
| TemplateOperations.DeleteInstanceTemplateIntended | shared/core/instance_template_operations.py:71-84 | with the library's delete in place of the missing name: a missing template is NotFound; otherwise exactly that template is deleted when the delete goes through |
| GroupOperations.CreateManagedInstanceGroup | shared/core/managed_instance_group_operations.py:8-24 | the template is looked up first; a missing template or an existing group is an error that leaves the groups alone; on success the group is new and holds exactly `<name>-000` .. `<name>-<size-1>` (just the seed when size <= 1) |
| GroupOperations.UpdateManagedInstanceGroup | shared/core/managed_instance_group_operations.py:27-43 | a missing template or group is an error that changes nothing; otherwise the group is patched to the template first; shrinking fails with TypeError; on success the group points at the template and keeps its members |
| GroupOperations.PatchAndScale | shared/core/managed_instance_group_operations.py:41-43 | the patch comes first; on success the group points at the template and no member was removed; a smaller size raises TypeError |
| GroupOperations.DeleteManagedInstanceGroup | shared/core/managed_instance_group_operations.py:46-58 | a missing group is an error; otherwise exactly that group is deleted when the delete goes through |
| RegionalGroup.PreservedDisks | shared/lib/regional_managed_instance.py:464-470 | the stateful policy keeps exactly the devices of the non-boot disks, each with auto-delete "never" |
| RegionalGroup.GroupRequestFor | shared/lib/regional_managed_instance.py:442-506 | the group request: its name as group and base-instance name, the template link, the target size, a balanced shape, the creation update policy and the preserved non-boot disks |
| RegionalGroup.BootDiskNotPreserved | shared/lib/regional_managed_instance.py:468-470 | a boot disk whose device name no other disk shares is never preserved |
| RegionalGroup.CreateRegionGroup | shared/lib/regional_managed_instance.py:134-163 | success exactly when the insert goes through on a new group and the read-back works; the group then exists, empty, stable, with the template link, the preserved disks and the policy; no other group changes; a failed operation is the operation's error |
| RegionalGroup.GetRegionGroup | shared/lib/regional_managed_instance.py:166-178 | one read; the group exactly when it succeeds and the group exists; any error reads as None; no group changes beyond settling |
| RegionalGroup.UpdateRegionGroup | shared/lib/regional_managed_instance.py:90-131 | one patch first; success exactly when it goes through on an existing group and the read-back works; the group then points at the template, with the single version `0-<now>`, the patched policy and its members unchanged; no other group changes |
| RegionalGroup.PatchedPolicy | shared/lib/regional_managed_instance.py:104-111 | the patched policy replaces instances by recreating them, opportunistically, one at a time, with no surge |
| RegionalGroup.AddInstances | shared/lib/regional_managed_instance.py:181-258 | the seed `<group>-000` is created first; with more than one node the seed's hostname is read from the first listed instance and `<group>-001` .. `<group>-<size-1>` are created with it in one request; exactly those members are added; no other group changes |
| RegionalGroup.AddedToEmptyGroup | shared/lib/regional_managed_instance.py:215-241 | in a group created empty the members become exactly `<group>-000` .. `<group>-<size-1>`, and every node after the seed is told the seed's own hostname |
| RegionalGroup.FilledEmptyGroup | shared/lib/regional_managed_instance.py:181-258 | what adding leaves in an empty group is exactly `<group>-000` .. `<group>-<size-1>` |
| RegionalGroup.CreateAndFill | shared/core/managed_instance_group_operations.py:22-23 | a group created and then filled is new and holds exactly `<name>-000` .. `<name>-<size-1>` |
| RegionalGroup.Grow | shared/lib/regional_managed_instance.py:331-371 | success exactly when the listing, the seed's hostname from the first listed member and the batch creation all go through; exactly the batch's instances are appended |
| RegionalGroup.ScaleGroup | shared/lib/regional_managed_instance.py:325-405 | an equal size changes nothing; a smaller one raises TypeError before any call; a larger one appends exactly `<group>-<size>` .. `<group>-<wanted-1>`, told the hostname of the first listed member; no other group changes |
| RegionalGroup.ScaledUpNames | shared/lib/regional_managed_instance.py:352-360 | growing a group of `<group>-000` .. `<group>-<size-1>` leaves exactly `<group>-000` .. `<group>-<wanted-1>` |
| RegionalGroup.BatchUrls | shared/lib/regional_managed_instance.py:352-360 | the URLs of a batch name the batch's indices, in order |
| RegionalGroup.CompletedRollout | shared/lib/regional_managed_instance.py:293-315 | when every instance's startup script reports success, the update covers every instance in listing order |
| RegionalGroup.StoppedRollout | shared/lib/regional_managed_instance.py:313-315 | when instance `i` reports a failure after the earlier ones succeeded, the update stops right after it |
| RegionalGroup.SerialOutput | shared/lib/instances.py:38-59 | one read of the console; the next chunk when there is one; any failure is the serial-output error and consumes nothing |
| RegionalGroup.AwaitStartup | shared/lib/regional_managed_instance.py:298-311 | the console is read one entry at a time until the first entry that reports an exit status; the verdict is that entry's, every entry before it reported none, and exactly the entries read are consumed; only the console is read and no update is applied |
| RegionalGroup.UpdateInstance | shared/lib/regional_managed_instance.py:276-311 | one instance's update is applied, to exactly that instance, before its verdict is awaited; the verdict is the first status reported on that instance's own console, read from where the console stood; no group changes |
| RegionalGroup.ApplyUpdatesToInstances | shared/lib/regional_managed_instance.py:262-315 | the group is listed first, whatever happens after; the instances are updated one at a time in listing order until the first failure; exactly the updated ones got the update, and each one's verdict was read from its own console in turn |
| RegionalGroup.RollOut | shared/lib/regional_managed_instance.py:274-315 | the loop updates a prefix of the members in order, stopping right after the first failure; exactly that prefix got the update; a chain of console states links each verdict to the entries read from that instance's console |
| RegionalGroup.DeleteRegionGroup | shared/lib/regional_managed_instance.py:422-436 | one delete; success exactly when it goes through on an existing group, which is then gone; a failure changes nothing |
| LegacyGroup.LegacyGroupRequest | lib/regional_managed_instance.py:182-230 | the older request preserves exactly "persistent-disk-0" and "persistent-disk-1" with auto-delete "never", whatever the template's disks |
| LegacyGroup.CreateRegionGroup | lib/regional_managed_instance.py:8-41 | the template is fetched first, and a failed fetch leaves every group as it was; success exactly when the template exists and the insert and read-back go through on a new group, which then exists, empty and stable; no other group changes |
| LegacyGroup.AddingInstances | lib/regional_managed_instance.py:61-94 | one request for `<group>-000` .. `<group>-<size-1>`, none told a master hostname; exactly those are appended on success |
| LegacyGroup.AddedNames | lib/regional_managed_instance.py:73-79 | the batch names exactly `<group>-000` .. `<group>-<size-1>` |
| LegacyGroup.Entries | lib/regional_managed_instance.py:133 | each member paired with the index its name ends with; the first name that does not parse raises |
| LegacyGroup.Insert | lib/regional_managed_instance.py:135 | inserting into a sorted list keeps it sorted and adds exactly that entry |
| LegacyGroup.SortByIndex | lib/regional_managed_instance.py:135 | the sort's result is sorted by index and a permutation of its input |
| LegacyGroup.LastK | lib/regional_managed_instance.py:137 | `entries[-k:]` is the last k entries, or all of them when there are fewer |
| LegacyGroup.UrlsOf | lib/regional_managed_instance.py:144-148 | the URLs of the entries, in order |
| LegacyGroup.LastKSplit | lib/regional_managed_instance.py:137 | what is kept and what is cut off are together exactly the entries |
| LegacyGroup.LastKHighest | lib/regional_managed_instance.py:135-137 | of a sorted list, the entries cut off hold the highest indices |
| LegacyGroup.ScaleDownSplit | lib/regional_managed_instance.py:133-137 | a scale-down by k deletes min(k, n) of n entries, and what it keeps together with what it deletes are exactly the entries |
| LegacyGroup.DeletesHighestIndices | lib/regional_managed_instance.py:133-137 | no entry a scale-down keeps has a higher index than one it deletes |
| LegacyGroup.EntriesOfNamedMembers | lib/regional_managed_instance.py:133 | each member named `<group>-<k>` parses to index k |
| LegacyGroup.ScalingGroup | lib/regional_managed_instance.py:97-163 | an equal size changes nothing; growing appends exactly `<group>-<size>` .. `<group>-<wanted-1>`; shrinking lists the members and removes exactly the (size - wanted) with the highest indices |
| Provisioning.Provision | core/create_cluster.py:21-33 | secret, key, bucket and scripts, each only after the one before succeeded; the step the run got to is returned: stopping at the secret leaves KMS state and buckets untouched, stopping at the key leaves buckets untouched with the secret in place, a later stop has the secret and the key in place; success exactly when all four succeeded, and then the bucket holds both scripts and their URLs are answered; without credentials a missing secret exits with status 1 before anything changes |
| Provisioning.SecretAndKey | shared/core/update_cluster.py:45-49 | the secret first, then the key, minted only once the secret step succeeded; a stop at the secret leaves KMS state and buckets untouched, a stop at the key leaves buckets untouched with the secret in place; success exactly when both succeeded, and then both exist; the only error is the process exit |
| UpdateCluster.SetupInstanceTemplate | shared/core/update_cluster.py:77-104 | always fails, with nothing but the log changed: a missing image is the image error, an existing template is refused, and a missing one fails on the absent template's labels |
| UpdateCluster.UpdateMig | shared/core/update_cluster.py:108-120 | the group is patched to the template first; the rollout runs only for an update-and-migrate; then the group is scaled to the cluster's size, and shrinking fails; no group is added or removed; on success the group points at the template |
| UpdateCluster.Scale | shared/core/update_cluster.py:120 | scaling keeps every group, fails on shrinking, and on success keeps the patched template link |
| UpdateCluster.UpdateCluster | shared/core/update_cluster.py:18-66 | always fails; the group is looked up first, and a missing one is an error before anything changes; otherwise the provisioning steps run in order and the step the run got to says what exists (as for `Provisioning.Provision`); a run that reaches the template step fails with a missing image, an existing template or the absent template's labels; no template, group or rule changes |
| CreateCluster.SetupInstanceTemplate | core/create_cluster.py:69-102 | always fails, with nothing but the log changed: a missing image is the image error, and otherwise the create or update call lacks its labels argument and raises TypeError |
| CreateCluster.SetupManagedInstanceGroup | core/create_cluster.py:49-62 | the group is looked up first; a missing one is created and holds exactly `<name>-000` .. `<name>-<size-1>`; an existing one is scaled, shrinking fails, and on success its members are kept |
| CreateCluster.CreateCluster | core/create_cluster.py:18-44 | always fails, at the latest at the template step; the provisioning steps run in order and the step the run got to says what exists (as for `Provisioning.Provision`); a run that reaches the template step fails with a missing image or the short create or update call; without credentials a missing secret exits with status 1 before anything changes |
| LegacyUpdate.SetupSecretManager | cmd/update_cluster.py:82-111 | the secret is checked first; without credentials a missing secret exits with status 1 and an existing one is kept; with credentials a missing secret is created, and then exactly one raw credentials version is appended; the answer is `<cluster>-admin-creds` |
| LegacyUpdate.CreateAndAdd | cmd/update_cluster.py:95-104 | the create request comes first; on success the secret holds exactly one version, the raw credentials |
| LegacyUpdate.SetupEncryptionKeys | cmd/update_cluster.py:65-79 | the ring is read first and created only when the read gave nothing; on success a key that did not exist before now does, named with this call's suffix, and carries the storage grant |
| LegacyUpdate.SetupCloudStorage | cmd/update_cluster.py:156-159 | always fails with TypeError: the bucket helper takes one argument and is given three |
| LegacyUpdate.SetupInstanceTemplate | cmd/update_cluster.py:130-152 | always fails with nothing but the log changed: a missing image or template raises the client's error, and an existing template exits with status 1 |
| LegacyUpdate.UpdateMig | cmd/update_cluster.py:176-178 | always fails with NameError: the group updater it calls is not defined |
| LegacyUpdate.UpdateCluster | cmd/update_cluster.py:16-60 | never succeeds; the group is looked up first and a missing one exits with status 1 before anything changes; a run that gets past the secret and key steps stops at the bucket step with the secret and a fresh key in place; no template, bucket, group or rule changes |
| LegacyUpdate.SecretAndKey | cmd/update_cluster.py:39-43 | the secret step, then the key step once it succeeded; the only exit is the secret step's, and it leaves keys, rings and grants as they were; on success the secret exists and a fresh key was minted |
| DeleteCluster.TemplateNameOfLink | shared/core/delete_cluster.py:15 | the last path segment of a group's template link is the name of the template it was created from |
| DeleteCluster.DeleteCluster | shared/core/delete_cluster.py:6-19 | the group is read first and a missing one fails before anything is deleted; a failed group deletion stops before the template; once the group is deleted, a template that cannot be found is NotFound with the templates unchanged, and otherwise success is exactly the template deletion going through; on success exactly the group and the template it pointed at are gone, in that order |
| Migration.ApplyMigration | shared/core/apply_migration_cluster.py:9-41 | the group is read first and a missing one is an error before any update; no group gains or loses a member; success exactly when the group was found and the rolling update ran to its end, even when it stopped on a failed script; the instances updated are a prefix of the group's members, in order |
| Entities.DiskFrom | shared/entities/template.py:15-19 | one element of a disk list becomes the disk record with its size, type and boot flag; success exactly when the three keys are there, and a missing `boot` is the first error |
| Entities.ParseDisksFirstError | shared/entities/template.py:14-19 | the first element that fails decides the failure of the whole list |
| Entities.ParseDisksInOrder | shared/entities/template.py:13-19 | one record per input disk, in input order; success exactly when every element converts |
| Entities.SingleBootRule | shared/entities/template.py:12-22 | a well-formed list is accepted exactly when at most one disk has boot == True, so a list with no boot disk passes; otherwise "More than one boot disk found" is raised |
| Entities.TwoBootDisksRejected | shared/entities/template.py:20-22 | two boot disks anywhere in a well-formed list are rejected |
| Entities.TemplateParams.constructor | shared/entities/template.py:3-8 | the defaults: e2-micro, debian-cloud, debian-11, no labels, and no disks attribute yet |
| Entities.TemplateParams.SetDisks | shared/entities/template.py:9-28 | anything but a list exits with status 0 and changes nothing; a rejected list raises and leaves `disks` unassigned; an accepted one sets `disks` to the converted records |
| RequestParser.CheckClusterDict | utils/parse_requests.py:13-28 | the presence checks in their order (storage, name, size, region, bucket), each with its own error; success exactly when the definition is well formed |
| RequestParser.TemplateNameFor | utils/parse_requests.py:69-75 | no dictionary and no cluster name is an error; otherwise the dictionary's `name`, or "template-" and the cluster name |
| RequestParser.CouchbaseFrom | utils/parse_requests.py:48-57 | no couchbase block gives no credentials; a block overrides only the keys it holds, the rest keep "username" and "password" |
| RequestParser.DefaultDiskWhenAbsent | utils/parse_requests.py:91-93 | a template dictionary without `disks` gets exactly the default 10 GB pd-standard boot disk |
| RequestParser.EmptyTemplateKeepsDefaults | utils/parse_requests.py:76-78 | an empty dictionary, or none beside a cluster name, gives the template named after the cluster with every default and no disks attribute |
| RequestParser.TemplateFromDictionary | utils/parse_requests.py:68-108 | each attribute is the dictionary's value when its key is present and the default otherwise; disks fall back to the default boot disk and are checked for at most one boot disk; labels map each key to its value |
| RequestParser.ImageFieldsOnDict | utils/parse_requests.py:81-86 | machine type, image project and image family take the dictionary's values where present |
| RequestParser.RegionOnDict | utils/parse_requests.py:87-88 | the region is set exactly when the dictionary has one |
| RequestParser.DisksOnDict | utils/parse_requests.py:89-93 | only the disks change: to the parsed list, with at most one boot disk, or to the default boot disk |
| RequestParser.LabelsOnDict | utils/parse_requests.py:94-103 | only the labels change, and only when the dictionary has them: to the map the list builds |
| RequestParser.ScriptUrlsOnDict | utils/parse_requests.py:104-107 | each script URL is set exactly when the dictionary has it |
| RequestParser.LabelsLastWins | utils/parse_requests.py:102 | the label map holds exactly the keys of the list, and each maps to the value of its last occurrence, keys being compared as JSON values |
| RequestParser.LabelsMustBeList | utils/parse_requests.py:96-97 | labels that are not a list are rejected before any label is read |
| RequestParser.LabelWithoutKeyRejected | utils/parse_requests.py:98-100 | the first label without `key` or `value` is rejected |
| RequestParser.NoTemplateKey | utils/parse_requests.py:43-46 | a cluster without `template` gets the template "template-<name>" with every default, and keeps its name and bucket |
| RequestParser.ClusterNeedsRequiredKeys | utils/parse_requests.py:13-28 | an accepted definition passed every presence check: size, region and bucket are not None |
| RequestParser.FillImageFields | utils/parse_requests.py:81-86 | the object's fields become exactly the image-field update of their old values |
| RequestParser.FillRegion | utils/parse_requests.py:87-88 | the object's fields become exactly the region update of their old values |
| RequestParser.FillDisks | utils/parse_requests.py:89-93 | the object's fields become exactly the disks update of their old values, or the update's error is returned |
| RequestParser.FillLabels | utils/parse_requests.py:94-103 | the object's fields become exactly the labels update of their old values, or the update's error is returned |
| RequestParser.FillScriptUrls | utils/parse_requests.py:104-107 | the object's fields become exactly the script-URL update of their old values |
| RequestParser.ParseInstanceTemplate | utils/parse_requests.py:68-108 | a fresh object whose fields are exactly the template the dictionary describes; its error otherwise |
| RequestParser.ParseInstanceTemplateFromJson | utils/parse_requests.py:63-64 | the same with no cluster name, so no dictionary at all is an error |
| RequestParser.ParseClusterDefFromJson | utils/parse_requests.py:10-61 | a fresh definition equal to the one the dictionary describes; its error otherwise |
| JsonDefinition.Check | utils/json.py:12-29 | the checks in their order (cluster, cluster.storage, size, region, bucket), each with its own error; success exactly when the document is well formed |
| JsonDefinition.NameFromArgument | utils/json.py:39-45 | the cluster is named by the argument, never by the document, and a template without `name` is "template-<that name>" |
| JsonDefinition.TemplateAndCredentialDefaults | utils/json.py:48-75 | a template without `disks` gets the default boot disk; without a template there is no disks attribute; without `couchbase` no credentials |
| JsonDefinition.ParseClusterDefFromJson | utils/json.py:10-79 | a fresh definition equal to the one the document describes; its error otherwise |
| YamlDefinition.Check | utils/yaml.py:23-45 | each failed check exits with status 0; success exactly when the document is well formed |
| YamlDefinition.ParseFromYaml | utils/yaml.py:16-21 | a malformed file exits with status 1; an unreadable one raises the OS error |
| YamlDefinition.OnlyNamedTemplatesAccepted | utils/yaml.py:58-61 | only a definition whose template names itself is accepted: without `template` the lookup raises KeyError, and without a name the fallback raises NameError |
| YamlDefinition.AcceptedDefinition | utils/yaml.py:47-90 | an accepted definition keeps the document's name, size, region and bucket; a template without `disks` gets the default boot disk; without `couchbase` no credentials |
| YamlDefinition.ParseFromYamlFile | utils/yaml.py:10-96 | a fresh definition equal to the one the file describes; its error otherwise |
| ArgsDefinition.ClusterFromArgs | utils/args.py:165-166 | with a YAML file the definition is exactly the file's |
| ArgsDefinition.ArgumentsNeverBuildCluster | utils/args.py:153-181 | without a YAML file no cluster is built: a missing argument ends in the usage helper's NameError, and a complete set in NameError on `agrs` |
| ArgsDefinition.ClusterFromArgsMethod | utils/args.py:161-197 | a fresh definition equal to the one the arguments describe; its error otherwise |
| Jobs.WithStatus | api/internal/cache.py:16-19 | the status is replaced; the message is written only when the given one is truthy; every other field is kept |
| Jobs.MessageKept | api/internal/jobs_controller.py:38-40 | a message, once written, survives a later update that brings none |
| Jobs.WithStatusIdempotent | api/internal/jobs_controller.py:36-42 | applying the same status update twice is applying it once |
| JobCache.NewJob | api/internal/cache.py:8-13 | the new record carries its own id as name, and no message or project id |
| JobCache.Cache.constructor | api/internal/cache.py:3 | the dictionary starts empty, so every record is filed under its own id |
| JobCache.Cache.GetJob | api/internal/cache.py:28-29 | the stored record exactly when `check_job` holds; an unknown id raises KeyError |
| JobCache.Cache.AddJob | api/internal/cache.py:7-13 | the fresh record is stored under the id, replacing any earlier one; no other entry changes; every record stays filed under its own id |
| JobCache.Cache.UpdateJobStatus | api/internal/cache.py:16-19 | an unknown id raises KeyError and changes nothing; otherwise only that record changes, by the status update; the set of ids is kept |
| JobStore.Collection.Insert | api/internal/couchbase.py:60-78 | an upsert: a refused key is an error with nothing changed; otherwise the document is stored under the key and answered |
| JobStore.Collection.Update | api/internal/couchbase.py:80-92 | a replace: success exactly when the key is accepted and already stored; the document is then replaced; any error changes nothing, and a missing document is "document not found" |
| JobStore.Collection.Get | api/internal/couchbase.py:94-110 | the stored document exactly when the key is accepted and stored |
| JobStore.Collection.Check | api/internal/couchbase.py:112-123 | answers whether the key is stored whenever the key is accepted |
| JobStore.Collection.List | api/internal/couchbase.py:125-146 | one row per stored document in the query's row order, and every stored document among them |
| JobStore.AddJob | api/internal/jobs_controller.py:6-24 | success exactly when the key is accepted; the record with its id, cluster, type, status and project id is then stored under the id; every stored job keeps carrying a project id |
| JobStore.UpdateJobStatus | api/internal/jobs_controller.py:27-42 | success exactly when the record can be read; only that record changes, by the status update; a failure changes nothing |
| JobStore.CheckJob | api/internal/jobs_controller.py:46-50 | answers whether the job is stored whenever the store accepts the id |
| JobStore.GetJob | api/internal/jobs_controller.py:53-57 | the stored record exactly when the store accepts the id and holds it |
| JobStore.GetJobList | api/internal/jobs_controller.py:60-66 | as many jobs as stored records; every stored record is listed and every listed job is stored; in a store whose jobs carry project ids so does every listed job |
| Workers.Recorded | api/internal/threads.py:25-36 | COMPLETED exactly after success, FAILED otherwise; an InternalException's message, which is never empty, is recorded; any other failure keeps the old message; the other fields are kept |
| Workers.RunOperation | api/internal/threads.py:23-38 | a process exit escapes and writes nothing; otherwise a writable record gets exactly the one terminal status for the outcome; a record that cannot be written is an error with nothing changed |
| Workers.RunCreate | api/internal/threads.py:51-67 | creation runs exactly when the cluster's document could be stored; a document that cannot be stored fails the job and keeps its message |
| Workers.RunUpdate | api/internal/threads.py:78-94 | a document that is missing or refused leaves the cloud untouched; the job never completes; only that job's record changes |
| Workers.RunDelete | api/internal/threads.py:107-122 | the job gets the deletion's terminal status; a COMPLETED job means its cluster's group existed and is now gone |
| Workers.RunMigrate | api/internal/threads.py:135-150 | the job gets the migration's terminal status; a missing group fails it with the group-not-found message; no group is added or removed |
| JobRoutes.Keep | api/routes/job.py:74 | a job without the filtered field raises KeyError on that field's key |
| JobRoutes.KeepPasses | api/routes/job.py:74-83 | what one filter keeps came from its input and has the field equal to the value |
| JobRoutes.SelectMembers | api/routes/job.py:73-83 | a job is returned exactly when it is listed and passes every truthy filter |
| JobRoutes.SelectOrder | api/routes/job.py:73-83 | the filters keep the jobs' relative order |
| JobRoutes.SelectAll | api/routes/job.py:73-83 | with no truthy filter every job is kept |
| JobRoutes.SelectFalsy | api/routes/job.py:73 | a falsy filter value restricts nothing |
| JobRoutes.KeepSelect | api/routes/job.py:74-83 | filtering the selection by one more field is selecting with that field's filter added |
| JobRoutes.StepSelect | api/routes/job.py:73-83 | one filter step on a selection is the selection with that step's filter added |
| JobRoutes.FilterSelect | api/routes/job.py:73-83 | the four filters in sequence equal the one-pass selection of the jobs that pass them all; this cannot fail when every job carries a project id or no project filter is given |
| JobRoutes.NoFilterKeepsAll | api/routes/job.py:73-84 | with no filter argument the whole list comes back |
| JobRoutes.FilterOutcome | api/routes/job.py:73-84 | the filter chain returns the selection whenever it cannot fail, and what it returns always passes every filter and was stored |
| JobRoutes.Unauthorized | api/routes/job.py:58-64 | an InternalException from the project check is answered with 401 and its message; anything else propagates |
| JobRoutes.JobList | api/routes/job.py:50-84 | a failed project check is answered with 401; otherwise, in a store whose jobs carry project ids, the answer is exactly the selection of the stored jobs, with 200; every returned job passes the filters and is stored |
| JobRoutes.JobLookup | api/routes/job.py:97-115 | as written: a failed check is 401; an unknown job is 404 with "Job not found"; a stored job is 200 with no body |
| JobRoutes.JobLookupIntended | api/routes/job.py:97-115 | as intended: a stored job is answered with its record and 200 |
| JobRoutes.LookupDropsRecord | api/routes/job.py:112-113 | for every stored job the route as written answers without the record the intended route returns |
| Cloud.Wait | utils/shared.py:84-123 | waiting succeeds exactly when the operation did; a failed operation raises the operation-failed error with its message |
| Cloud.LegacyWait | utils/gcp.py:6-47 | waiting succeeds exactly when the operation did; otherwise the operation's own error is raised |
| Cloud.PollUntilStable | shared/lib/regional_managed_instance.py:151-163 | the group is read until it reports stable; the first failed read ends the wait; the answer is the stable group and nothing but its settling changes |

## Left out

- The Google Cloud SDK clients, OAuth credentials and client construction are not modelled. Each call is one `Cloud.Provider` method that either succeeds or returns the provider's error.
- The wait for a long-running operation is modelled as the operation's result or its error. Sleeps, poll intervals and timeouts are not modelled.
- Serial-console polling reads a sequence the provider holds, one entry per read. An exhausted sequence is a failed read. Group stability polling reads a countdown that reaches "stable".
- `time.time()` version names, `uuid4` and random hex key suffixes become parameters (`now`, `suffix`).
- Logging is not modelled.
- Jinja rendering and local file writes are not modelled. The rendered startup script is represented by the node and hostname lists it is given.
- File reads and environment variables are parameters: the YAML file's parsed content, the service-account addresses and the region.
- The Google Cloud parameter check (`check_gcp_params`) is a parameter of the job routes.
- Threads are not modelled. Each worker `run()` body is a sequential method. There is no lock around the in-memory `jobs` dictionary, and interleavings are not modelled.
- Flask routing, JWT and bcrypt authentication, `admin_required` and the user model are not modelled.
- The document store's listing order is a parameter: any order that lists every stored key once.
- JobStore.Collection.Check: answers whether the key is stored. With the real client, `get` raises on a missing document, so `check` raises rather than answering false. The same holds for `JobStore.CheckJob` and `JobRoutes.JobLookup`: their 404 branch for an unknown job exists only in this model.
- `shared.core.create_cluster` is not part of this model. In `Workers.RunCreate` the creation's outcome is therefore a parameter.
- `api/routes/cluster.py:176` builds `UpdateClusterThread` without the cluster JSON that the thread's constructor requires. `Workers.RunUpdate` is modelled with that argument supplied.
- The routes register jobs in the in-memory cache while the workers update the document store. The two registries are modelled as two independent stores.
- Failures at import time are not modelled; every module is modelled as if it loads. These are the exception classes that `utils/exceptions.py` does not define, and the names `delete_template` and `update_region_managed_instance_group`. A missing exception class is treated as an InternalException subclass.
- `UpdateCluster.UpdateCluster` never reaches its group-update and firewall steps: its template step always fails. The same holds for `CreateCluster.CreateCluster`. These steps are modelled on their own (`UpdateCluster.UpdateMig`, `CreateCluster.SetupManagedInstanceGroup`, `Firewall.SetupFirewall`) but are unreachable from the orchestrators.
- UpdateCluster.UpdateCluster: apart from its first entry, the order of its log is not stated; how far it got is stated through the returned step instead.
- CreateCluster.CreateCluster: the order of its log is not stated; how far it got is stated through the returned step instead.
- Provisioning.Provision: a stop at the bucket step and a stop at the script step promise the same (secret and key in place); what the bucket step did before a failed upload is not restated.
- `shared/core/update_cluster.py:13` and `core/create_cluster.py:13` import `setup_encryption_keys` from `shared.discovery.kms`, which is not part of this model. Both orchestrators use `discovery/kms.py` (`KmsDiscovery.SetupEncryptionKeys`) in its place.
- JobStore.GetJobList: a failing listing query is not modelled; the listing always answers, and so do `JobStore.Collection.List` and `JobRoutes.JobList`.
- JsonValue.Json: numbers with a fraction or an exponent (floats) are not modelled, so comparisons such as `1.0 == True` and a float's f-string text are not captured.
- SerialScan.DigitRun: the digit test is ASCII only. Python's `\d` in a str pattern also matches other Unicode decimal digits, so console output reporting a status in such digits is read as no status and polling goes on.
- SerialScan.FindExitStatuses: captures ASCII-digit statuses only, for the same reason as `SerialScan.DigitRun`.
- RequestParser.LabelsLastWins: label keys are compared as JSON values, so `true` and `1` (and `false` and `0`) stay separate keys. Python's `dict` merges keys that compare equal, keeping the first key and the last value.
- Cloud.Group: a group's target size is the number of its members (`TargetSize`). The service reports `target_size` separately from the instance listing, and the two can differ while instances are being created or deleted; the model does not capture that difference.
- Cloud.Provider.ListInstancesCall: the listing answers with a group's members in the order they were created, and every instance the model creates (`NewUrls`, `Urls`) is placed in the provider's one zone `p.zone`. The regional service spreads instances over the region's zones and does not promise an order, so the seed the source takes from the first listed instance may be any member; RegionalGroup.ScaleGroup, RegionalGroup.Grow and RegionalGroup.AddInstances state their results for the creation-order first member only.
- Text.ParseInt: Python's `int()` also accepts surrounding whitespace, a sign, `_` between digits and non-ASCII decimal digits; the model accepts ASCII digits only, which covers the zero-padded indices of the instance names the orchestrator creates.
- The provider files templates and groups under the name in the request. The model does not require a stored record's own name field to equal its key.
- `DeleteCluster.DeleteCluster` deletes the template through the corrected `TemplateOperations.DeleteInstanceTemplateIntended`. As written, the template step ends in NameError after the group is deleted (see Findings).
- The orchestrators take typed inputs (`Entities.ClusterSpec`). The parsers produce JSON-valued parameters. The link between the two is not modelled.
- Defects kept as the code behaves, as error outcomes:
  - Shrinking a group calls `list_region_instances` with four arguments, which is a TypeError.
  - `disk_from_image` is called with five arguments, which is a TypeError whenever disks are given.
  - The create and update template calls in `core/create_cluster.py` are one argument short, which is a TypeError.
  - The template-absent branch of the shared update reads `None.labels`, which is an AttributeError.
  - `shared/lib/firewall.py` calls an undefined existence check, which is a NameError.
  - `utils/yaml.py` refers to `self` in its default template name, which is a NameError.
  - `utils/args.py` refers to `agrs`, which is a NameError.
  - `lib/storage.py` raises a string, which is a TypeError.
  - The legacy update calls `create_bucket` with the wrong number of arguments, which is a TypeError.
- The `entities/*` records other than the shared template entity are not modelled, and nor is `shared/entities/cluster.py`. The pass-through wrappers (`lib/template.py`, `lib/managed_instance.py`, `lib/disks.py`, `shared/core/storage_operations.py`, `shared/core/kms_operations.py`, `shared/core/attach_disk.py`) and the command-line plumbing (`cmd/*` other than `cmd/update_cluster.py`, `main.py`) are not modelled either. None of them holds logic beyond the calls modelled here.
- `utils/couchbase.py` and `utils/exec.py` run subprocesses and are not modelled.

## Findings

| source | as written | input that shows it | evidently intended | confidence | as-written member | corrected member |
|---|---|---|---|---|---|---|
| shared/core/instance_template_operations.py:71-84 | `delete_instance_template` calls `delete_template`, which `shared/lib/template.py` does not define, so an existing template raises NameError and is not deleted | any template name that is stored | delete the stored template and wait for the operation | not executed | TemplateOperations.DeleteInstanceTemplate | TemplateOperations.DeleteInstanceTemplateIntended |
| api/routes/job.py:112-113 | the found branch evaluates `get_job(job_id), 200` without `return`, so the handler answers 200 with no body | any job id present in the store | return the stored job record with 200 | not executed | JobRoutes.JobLookup | JobRoutes.JobLookupIntended |
