# The CoreDNS manager operator in Dafny

The operator turns DNSRecord and DNSZone objects into zone files and splices them into CoreDNS's
Corefile and pod template. Three controllers (record, zone, connector) share one API server. This
project models the Corefile splicer, the volume and mount reconciler, the zone-file printer with
its serial-insensitive comparison, the serial, and the three controllers themselves over an API
server on which users, the garbage collector and the other controllers act between any two calls
and on which any call may fail. `dafny verify dfyconfig.toml` checks everything.

## How it is built

| files | what they hold |
|---|---|
| `Text`, `Objects` | strings as Go handles them; the API objects as values |
| `Corefile`, `CorefileLaws` | the splicer as loops; its laws over one pass and any number of passes, stated with two independent readers of a Corefile |
| `PodTemplate`, `PodTemplateLaws` | the volume and mount pass, in place on the fetched object; its laws and its agreement with the Corefile |
| `ZoneFile`, `ZoneFileLaws`, `Serial` | header, records, stripping loop; printing is reversible, comparison is exact, the serial does not move without cause |
| `Cluster` | the store, 24 kinds of action, when each may happen (`Enabled`) and what it does (`Apply`) |
| `Invariants`, `Safety` | the invariant of every reachable state; the theorems about whole runs |
| `Environment` | what a controller may rely on while everybody else acts |
| `Api`, `Finalizers` | the server as a class whose calls interleave with the others and may fail; the two finalizer calls |
| `RecordReconciler`, `ZoneReconciler`, `ConnectorReconciler` | the controllers' code over that server, call by call |
| `ZoneOutcomes` | what zone passes amount to over runs: quiet repetition, when a zone ends up checkpointed, two runs that go wrong |
| `ConnectorSpecs`, `Notices`, `PassLaws` | what a connector pass computes; why its passes come to rest; what a completed pass means for what is served |

The theorems about runs speak of sequences of actions in which every controller write was
*justified*: `Enabled` lists what its author must know at that moment. That the code never makes an
unjustified write is what the controller methods prove. `ApiServer.Write` may only be called when
the write is justified in *every* state the others can bring about before it lands (`Prepared`), and
`ApiServer.Yield` lets them do anything that is enabled for them. Resource versions, finalizers and
deletion marks are what the methods use to discharge this, as the Go code does. A write that
reports an error may still have taken effect. `ApiServer.Valid` says that the trace so far is such a
run, so the theorems of `Safety` hold of every state in which a controller method begins or ends.

Where the source has loops and objects it updates, so has the model: the splicer, the pod template,
the zone file stripping, and every reconcile step are methods with loops, proved against functions
whose properties are the lemmas.

## What came out

Two behaviours limit what is true, and the theorems are stated around them:

* A refused zone file makes `createOrUpdateZoneCM` return nil (dnszone_controller.go:262), so the
  caller still marks every record ready. `ReconcileCreateOrUpdate` says so: on `Rejected` the records
  are marked as on the other exits. `PassServesRecords` is about the exits where their text is stored;
  `RefusedYetReady` is a run that ends with a ready record and no ConfigMap at all.
* The "no changes" exit (dnszone_controller.go:295-297) writes nothing, so it leaves a status behind
  that an earlier failure had set. A zone whose ConfigMap was written and whose status write was lost
  (`LostStatus`) takes this exit from then on, is not checkpointed and not selected as long as its
  content stays (`LostStatusStays`). `CheckpointedIff` says exactly when a pass checkpoints its zone.

Also:

* On that exit the ConfigMap that was found may belong to an earlier object of the same name and be
  waiting for the collector; `MapAsRead` promises that it stays only if the zone owns it.
* The keyed lookup of the scanner never hits a block the operator wrote, because markers carry two
  spaces (`LookupNeverHits`); each pass drops all blocks and appends them, and adds one blank line.
* The documentation requires only that a zone has a domain. With a blank one the operator does not
  recognise its own markers, with one that looks like an end marker it takes the first line of the
  block for its end; `FirstPassLawIff` gives the exact condition for domains of one line.
* docs/dnsconnector.md:35 promises a rollback when CoreDNS does not become ready in time. The code
  only sets a condition. `Deliver` gives the stages of every pass, failed ones too, `NoRollback` draws
  the conclusion: no pass that serves ever restores, and after a failed health check the spliced
  Corefile stands, the list of provisioned zones is the old one and no status is ready.
* Two zones may have one domain. Both are then reported as provisioned, but only one of their
  ConfigMaps is mounted (`EachMapMountedIff`).
* The documentation's record template always prints a TTL; the code prints it only if it is set.
* The backup is made from the ConfigMap read at the start of the pass, so an edit in between is not
  in it (`BackupRace`); `BackupAgrees` says exactly when it equals the ConfigMap at that moment, and
  `BackupIsPristine` what holds always.
* No deletion pass without a backup succeeds or writes anything (`ReconcileDelete`), and over whole
  runs a connector that carries the finalizer keeps it as long as there is no backup (`HeldUntilBackup`).
* `a.b` and `a-b` share a volume name (`DashedDomainsCollide`, `SameNameIff`, `AllMountedIff`), and a kept volume is
  never refreshed (`StaleVolumeStays`).
* Text behind a tab in a record line that contains the word "Serial" can change without being
  noticed (`ChangeMissedBehindTab`), and so can the tab be added. Every change away from given records
  is noticed exactly if none of their lines contains the word (`EveryChangeNoticedIff`).
* Serials shrink from December to January (`SerialGrowsIff`).

## What is assumed of users

`Admitted`: a zone's domain is non-empty and free of white space, and its other fields obey the
patterns of the custom resource. `SafeConnector`: no line of a plugin entry is a marker, and the
mount directory is one line. `NamesApart`: no two zones have the same ConfigMap name. `CMPrefix` is
fixed per zone, there is one connector with one CoreDNS ConfigMap, and nobody but the controllers and
the collector writes or deletes zone ConfigMaps or the backup. No zone's ConfigMap name is that of the
CoreDNS ConfigMap or of the backup. Users may edit or delete the CoreDNS
ConfigMap and the workload at any time.

## Model

| member | source | states |
|---|---|---|
| Invariants.RunsAreSafe | internal/controller/dnszone_controller.go:57-331 | From an empty cluster, after any interleaving of user edits, garbage collection and controller writes, each cut short anywhere, the whole invariant holds: zone ConfigMaps consistent and validated, status flags justified, finalizers in order, no spliced Corefile without a backup and a connector that is held |
| Invariants.StepKeeps | internal/controller/dnszone_controller.go:93-331 | The invariant is kept by every single step of anyone: 24 kinds of action |
| Safety.LastGood | internal/controller/dnszone_controller.go:248-331 | In every reachable state each zone ConfigMap has exactly one key, that of its domain, its text passed validation, and the SOA serial in the text is its SerialNumber annotation; so the missing-annotation, missing-zonefile and not-one-key errors cannot arise on it |
| Safety.StatusImplications | internal/controller/dnsconnector_controller.go:344-372 | In every reachable state Ready implies ValidationPassed implies Checkpoint; a checkpoint implies a condition and an existing own ConfigMap of the recorded name; the selection loop takes a zone if and only if it is checkpointed |
| Safety.CheckpointLasts | internal/controller/dnsconnector_controller.go:356-371 | Once checkpointed, a zone stays so over any further run while it is the same object, and every later selection takes it |
| Safety.FinalizerNeverOutlivesZone | internal/controller/dnszone_controller.go:93-152 | A zone ConfigMap that carries the finalizer belongs to a zone that is still there as the same object and carries its own; so no ConfigMap is left stuck |
| Safety.BackupIsPermanent | internal/controller/dnsconnector_controller.go:403-419 | The backup never changes once it exists |
| Safety.WriteFollowsBackup | internal/controller/dnsconnector_controller.go:131-231 | In any run a backup exists at every Corefile write. Here that is read off the guard of the action; that the code never writes without it is `CorefilePrepared` and `Push` |
| ConnectorReconciler.CorefilePrepared | internal/controller/dnsconnector_controller.go:97-231 | With the ConfigMap that was read, a backup and a held connector, the Corefile write is justified in every state the others can bring about in which the server still accepts it: the guard of the runs is discharged for the code |
| Safety.BackupIsPristine | internal/controller/dnsconnector_controller.go:403-419 | The Data of the backup was the Data of the CoreDNS ConfigMap at some moment of the run no later than the backup, and up to the backup the operator had never written the Corefile; for a pass that gets as far as a plan the moment is that of its own read (`ReconcileDNSConnector`), and whether it still was at the end is `BackupAgrees` |
| Safety.BackupAgrees | internal/controller/dnsconnector_controller.go:403-415 | When a backup is made, it equals the current Data of the CoreDNS ConfigMap if and only if it is what the run says users put there last (`Basis`, read off the actions alone) |
| Safety.BackupRace | internal/controller/dnsconnector_controller.go:403-415 | A concrete run in which an edit falls between the read and the backup, so the two differ |
| Safety.GoneMeansRestored | internal/controller/dnsconnector_controller.go:490-521 | In every reachable state without a connector that holds the finalizer, the Data of the CoreDNS ConfigMap is exactly what users and restores left last; so it is that of the backup if and only if nobody put anything else there since |
| Safety.HeldUntilBackup | internal/controller/dnsconnector_controller.go:422-521 | Over any run, a connector that carries the finalizer still does, and stays marked for deletion if it was, as long as no backup exists |
| Safety.UserLinesSurvive | internal/controller/dnsconnector_controller.go:97-231 | In every reachable state the CoreDNS ConfigMap has the keys users or a restore gave it last, a Corefile not spliced since is unchanged, and one that was keeps the lines outside managed blocks in order, followed by exactly one blank line per splice, whatever happened in between |
| Safety.PlainTextSurvives | internal/controller/dnsconnector_controller.go:97-231 | So if that Corefile was marker-free, all its lines are still there, in order, outside the managed blocks, whatever passes there have been |
| Corefile.PrintPlugins | internal/controller/dnsconnector_construction.go:55-59 | Every enabled plugin, in the order of the list, starts a tab-indented line; for plugins of one line each, these are exactly the lines |
| Corefile.BuildBlocks | internal/controller/dnsconnector_construction.go:48-77 | Succeeds exactly if every ConfigMap has the domain annotation and its zone file; the table has one block per distinct domain |
| Corefile.ScanCorefile | internal/controller/dnsconnector_construction.go:79-97 | The line scanner: text kept outside blocks, blocks hit in place, table left over |
| Corefile.AppendLeftovers | internal/controller/dnsconnector_construction.go:99-101 | Every left-over block is appended exactly once, in an arbitrary order |
| Corefile.GenerateCorefileCM | internal/controller/dnsconnector_construction.go:33-108 | Fails exactly on the missing key, annotation or zone file; otherwise only the Corefile key changes, to the splice |
| CorefileLaws.SplicedLines | internal/controller/dnsconnector_construction.go:79-103 | The lines after a pass whose lookups miss: the unmanaged lines, one blank line, then the lines of every block |
| CorefileLaws.PassLaw | internal/controller/dnsconnector_construction.go:79-103 | One pass keeps the unmanaged lines in order, adds exactly one blank line, closes every block, and leaves markers that no domain can look up |
| CorefileLaws.TidyPass | internal/controller/dnsconnector_construction.go:79-103 | The same law from any text whose blocks are closed and whose markers carry two spaces, marker-free or written by any earlier passes; the property is kept, and the keyed lookup of the scanner misses |
| CorefileLaws.NPassLaw | internal/controller/dnsconnector_construction.go:79-103 | From a marker-free Corefile, n passes with any zones and any map orders leave the original lines followed by exactly n blank lines |
| CorefileLaws.LookupNeverHits | internal/controller/dnsconnector_construction.go:84-91 | In such a run the keyed lookup of the BEGIN branch never succeeds, and every pass leaves well-formed blocks of exactly its own zones |
| CorefileLaws.SpliceExact | internal/controller/dnsconnector_construction.go:48-103 | Reading a generated Corefile with an independent reader yields exactly one well-formed block per zone domain, and no other, in the order of the map: the server line, the file line of the zone, one line for each plugin in order, and the closing brace |
| CorefileLaws.EveryBlockOnce | internal/controller/dnsconnector_construction.go:79-103 | In any Corefile, hand-written markers included: the lines outside blocks are kept in order, the block of a domain is put at the first BEGIN line that names it, if one does, and is appended otherwise, so every zone has exactly one block in what is written |
| CorefileLaws.SecondPassAgrees | internal/controller/dnsconnector_construction.go:79-103 | Two passes over the same zones differ in one blank line and the order of the blocks, nothing else |
| CorefileLaws.FirstPassLawIff | internal/controller/dnsconnector_construction.go:68-100 | For any domains of one line, the one-blank-line law of a first pass holds if and only if no domain is blank or, after white space, starts like the end marker |
| PodTemplate.GetDesiredVolumes | internal/controller/dnsconnector_construction.go:112-134 | Fails exactly on a missing annotation or a ConfigMap without exactly one key; otherwise the wanted volume of every domain, later entries winning (`LastWins`) under the names of `VolumeNameIs` |
| PodTemplateLaws.VolumeNameIs | internal/controller/dnsconnector_construction.go:118-120 | The volume name of a domain is the prefix and the domain with dashes for dots, less one dash at the end if the domain ends in a dot or dash or is empty |
| PodTemplateLaws.SameNameIff | internal/controller/dnsconnector_construction.go:118-120 | Two domains share a volume name if and only if they differ in dots and dashes only, or do so once a dash is put to the end of one of them |
| PodTemplateLaws.ZoneNamedIff | internal/controller/dnsconnector_construction.go:112-134 | All names wanted for a list of ConfigMaps carry the prefix of zone volumes if and only if no domain of the list is empty |
| PodTemplateLaws.LastWins | internal/controller/dnsconnector_construction.go:112-134 | Each wanted name stands for the last ConfigMap of the list that asks for it |
| PodTemplate.SetZoneFileConfigMaps | internal/controller/dnsconnector_construction.go:139-246 | In place on the fetched object: the new annotation, the new volumes, and the mounts of container 0 filtered, completed and given to every container; volumes and containers untouched on error |
| PodTemplateLaws.NewVolumesLaw | internal/controller/dnsconnector_construction.go:164-240 | For any wishes and any map order: undesired zone volumes vanish, every desired name is present, nothing else is added, distinct names stay distinct; and if all wishes carry the prefix, foreign volumes survive in order |
| PodTemplateLaws.OthersSurviveIff | internal/controller/dnsconnector_construction.go:164-240 | For the wishes of any list of ConfigMaps the volumes without the prefix are after the pass exactly those before it, in order, if and only if no domain is empty or a volume with the name of the empty domain was there |
| PodTemplateLaws.NewMountsLaw | internal/controller/dnsconnector_construction.go:177-243 | The same for mounts, by path; mounts of desired names are kept |
| PodTemplateLaws.OtherMountsSurvive | internal/controller/dnsconnector_construction.go:177-243 | For the wishes of any list of ConfigMaps without an empty domain, the mounts without the prefix are exactly those before the pass, in order |
| PodTemplateLaws.NothingStaleLeft | internal/controller/dnsconnector_construction.go:112-243 | After a pass with one list and a pass with another, no volume and no mount is left that only the first list wanted, but for what an empty domain left |
| PodTemplateLaws.SecondPassIsIdle | internal/controller/dnsconnector_construction.go:164-243 | A second pass with the same wishes in any order changes nothing |
| PodTemplateLaws.StaleVolumeStays | internal/controller/dnsconnector_construction.go:167-175 | A kept volume is never refreshed: the wanted volume is there if and only if no different volume held its name |
| PodTemplateLaws.PassAgrees | internal/controller/dnsconnector_construction.go:187-243 | With collision-free names and coherent kept entries, every domain ends up mounted in the template and backed by the volume of its ConfigMap and key, and coherence is kept |
| PodTemplateLaws.CoherenceCarriesOver | internal/controller/dnsconnector_construction.go:164-185 | Coherence with one pass implies coherence with the wishes of the next, when no name or key is reassigned |
| PodTemplateLaws.AllMountedIff | internal/controller/dnsconnector_construction.go:118-119 | From a template without zone mounts, every zone file is mounted if and only if no two domains share a volume name |
| PodTemplateLaws.DashedDomainsCollide | internal/controller/dnsconnector_construction.go:118-119 | Two ordinary domains that share a volume name |
| PodTemplateLaws.BlockServesMountedFile | internal/controller/dnsconnector_construction.go:68-73 | The file line of a written block names exactly the mount path |
| ZoneFile.GetGoodRecords | internal/controller/dnszone_construction.go:112-127 | The validated records of the listing, each once, sorted by name |
| ZoneFileLaws.GoodRecordsUnique | internal/controller/dnszone_construction.go:112-127 | The texts taken, in their order, depend only on names and generated texts of the validated records, not on the order of the listing nor on versions, conditions or specs; from the same records the result is the same list |
| ZoneFile.BakeRecords | internal/controller/dnszone_construction.go:130-146 | The newline-joined generated records in order, and the number of lines |
| ZoneFileLaws.BakeCount | internal/controller/dnszone_construction.go:139-142 | The count is the sum over records of one plus its newlines; it equals the number of records if and only if no record holds a newline |
| ZoneFileLaws.BakeRoundTrip | internal/controller/dnszone_construction.go:130-146 | Splitting the baked text returns the records in order if and only if the count is right |
| ZoneFileLaws.PrintRoundTrip | internal/controller/dnszone_construction.go:26-98 | Header fields, serial and records text are all recovered from the printed file (RFC 1035, sections 5.1 and 3.3.13), for any header |
| ZoneFileLaws.SpecRoundTrip | internal/controller/dnszone_construction.go:26-98 | For the fields of a zone: reading the file of a spec back yields its serial, its records and each of the ten fields of the spec in its place, the origin being the domain with a dot at its end |
| ZoneFileLaws.HeaderWords | internal/controller/dnszone_construction.go:26-98 | Word by word, for fields without spaces: the SOA record names the host in the zone and the person, the NS record the host, and the address record the host, its type and its address |
| ZoneFileLaws.OneKey | internal/controller/dnszone_construction.go:50-72 | The one key of the zone ConfigMap is the domain with a dot at its end, followed by the word zone; its one value is the file |
| ZoneFileLaws.RecordRoundTrip | internal/controller/dnsrecord_construction.go:54-70 | For name, TTL and type without spaces, the words of a printed record are the name, the TTL if and only if there is one, IN, the type, and then those of the value |
| ZoneFileLaws.PrintAlikeIff | internal/controller/dnsrecord_construction.go:54-70 | Two such records print alike if and only if they agree in name, TTL, type and value, but for one misreading that needs a record type called IN |
| ZoneFile.RemoveSerialNumber | internal/controller/dnszone_controller.go:399-408 | Every line with the word is cut at its first tab and marked; all other lines stay |
| ZoneFile.CompareZonefileConfigMaps | internal/controller/dnszone_controller.go:381-396 | True if and only if the Data are equal after the serial is removed from every entry |
| ZoneFileLaws.SameIffConfused | internal/controller/dnszone_controller.go:381-408 | Without assumptions on the records, when exactly two printed files compare equal: line by line outside the serial line |
| ZoneFileLaws.ChangeDetection | internal/controller/dnszone_controller.go:381-408 | Sound and complete for safe records: equal up to the serial if and only if header and records are the same |
| ZoneFileLaws.UpdateDueIff | internal/controller/dnszone_controller.go:381-396 | The same at the level of the Data of two ConfigMaps, over the fields of the two specs: equal if and only if the records and all fields of the file are, the domains up to a dot at the end |
| ZoneFileLaws.ChangeMissedBehindTab | internal/controller/dnszone_controller.go:402-405 | A change the comparison misses: text behind a tab in a record line that contains the word |
| ZoneFileLaws.EveryChangeNoticedIff | internal/controller/dnszone_controller.go:381-408 | Seen from the stored records alone: every file with other records compares different, whatever they are, if and only if no line of the stored ones contains the word |
| ZoneFileLaws.SerialBlind | internal/controller/dnszone_controller.go:381-408 | The serial alone never makes two files differ, whatever the fields hold |
| ZoneFileLaws.NoSpuriousMoves | internal/controller/dnszone_controller.go:214-331 | Any number of passes over an unchanged spec and unchanged names and texts of the validated records never rewrite what one of them stored, at any times, in any listing orders and whatever the passes mark |
| ZoneFileLaws.WrittenAtMostOnce | internal/controller/dnszone_controller.go:214-331 | From any stored ConfigMap, or none: a pass that writes it is the last that does while spec, names and texts of the validated records stay the same |
| Serial.SerialOrder | api/v1alpha1/dnszone_types.go:210-216 | As strings, serials are ordered by the moment within the year |
| Serial.SerialValue | api/v1alpha1/dnszone_types.go:210-216 | A serial is ten digits and at most 1231235959, below 2^31 |
| Serial.SerialGrowsIff | api/v1alpha1/dnszone_types.go:210-216 | A later serial is the greater one, as string, number and in RFC 1982 section 3.2 arithmetic, if and only if its moment lies later in the year; never across New Year from December to January |
| Finalizers.AddFinalizer | internal/controller/finalizers.go:29-42 | Fetch, then at most one versioned update; on success the object carries the finalizer |
| Finalizers.RemoveFinalizer | internal/controller/finalizers.go:45-59 | At most one versioned update; on success the finalizer is off, and a deleted object is gone |
| RecordReconciler.HandleGenericRecord | internal/controller/dnsrecord_construction.go:18-52 | The status written carries the printed record and the parser's verdict on it, says not ready for the generation that was read, and is written unless it was there; success only for a valid record |
| RecordReconciler.JudgedSays | internal/controller/dnsrecord_construction.go:18-52 | Valid or not, a judged record is not ready, for its own generation: only joining a zone makes it so |
| RecordReconciler.Reconcile | internal/controller/dnsrecord_controller.go:51-104 | A new record gets the finalizer, a deleted one is let go and is gone, any other is judged |
| ZoneReconciler.UpdateStatus | internal/controller/dnszone_controller.go:359-377 | The status is written unless it differs from the one that was read in transition times only, field by field |
| ZoneReconciler.FetchGoodRecords | internal/controller/dnszone_construction.go:101-127 | The validated records of the zone in the state that was listed, sorted |
| ZoneReconciler.MarkRecords | internal/controller/dnszone_controller.go:195-208 | Every listed record is fetched again and its condition written, in order; exact list of writes, a prefix of it on failure; each says ready, or not ready, for the generation that was read, and leaves the rest of the record's status alone |
| ZoneReconciler.Refuse | internal/controller/dnszone_controller.go:249-262 | After a failed validation only the condition and validationPassed are written |
| ZoneReconciler.Store | internal/controller/dnszone_controller.go:281-331 | The decision of a pass is that of NextData: keep what is stored or store what was printed, exactly |
| ZoneReconciler.RepeatedPassIsQuiet | internal/controller/dnszone_controller.go:292-300 | A pass over what an earlier pass stored for the same spec and records takes the "no changes" exit or is refused, never the write exit, whatever the two serials |
| ZoneOutcomes.SecondPassIsQuiet | internal/controller/dnszone_controller.go:158-331 | No spurious writes, for the code: after a pass that stored a zone file or found it current, a pass that finds this ConfigMap, the same spec and the same names and texts of validated records never writes the ConfigMap, however it ends; if the text is valid it writes nothing but its marks |
| ZoneOutcomes.MarksKeepEntries | internal/controller/dnszone_controller.go:195-208 | Marking records does not change what the zone file takes from them, so the passes' own marks do not spoil this |
| ZoneReconciler.Complete | internal/controller/dnszone_controller.go:309-330 | After the update the status reports it and the finalizer is put on again, with the ConfigMap still as printed |
| ZoneReconciler.CreateOrUpdateZoneCM | internal/controller/dnszone_controller.go:214-331 | A file that fails validation reaches neither ConfigMap, serial, checkpoint nor ConfigMap name, however the pass ends; a valid one is stored exactly as printed, unless what is stored differs from it in the serial only, and then nothing is written; create, update, status and finalizer are written in this order, at most once each |
| ZoneReconciler.ReconcileCreateOrUpdate | internal/controller/dnszone_controller.go:158-211 | The records section is the name-sorted join of all validated records of a state of the run within the pass; the ConfigMap part decides as NextData on what was stored then; exact writes on every ending, failed ones too: after a failed listing at most the status that says so, for an invalid file at most the refusal, for a valid one only the writes of the ConfigMap part; on success every record was marked ready, also when validation refused the zone |
| ZoneReconciler.ReleaseMap | internal/controller/dnszone_controller.go:97-117 | The ConfigMap is let go before anything else of a deletion |
| ZoneReconciler.ReconcileDelete | internal/controller/dnszone_controller.go:93-155 | The zone is gone only after its ConfigMap was let go and every record listed within the pass was told that it is not ready, in this order |
| ZoneReconciler.Reconcile | internal/controller/dnszone_controller.go:57-90 | A new zone gets the finalizer; for a deleted one the whole contract of ReconcileDelete holds, for any other that of ReconcileCreateOrUpdate with the serial of the moment; exact writes in each case |
| ZoneReconciler.StatusesSay | internal/controller/dnszone_controller.go:158-331 | What the status writes of a pass say, field by field: after a failed listing nothing but not ready, after a refusal also not valid, with serial, count, ConfigMap name and checkpoint untouched; after a write valid, checkpointed, the serial of the file, the number of lines of records, and the name of the ConfigMap |
| ZoneOutcomes.CheckpointedIff | internal/controller/dnszone_controller.go:158-331 | In any run, a pass leaves its zone in place, and checkpointed if and only if it was or the pass wrote the status that says so; for a pass that went through and was not refused: if and only if it was or the pass took the write exit |
| ZoneOutcomes.LostStatusStays | internal/controller/dnszone_controller.go:292-330 | A pass that finds in the ConfigMap what it would print, but for the serial, leaves a zone that is not checkpointed so, and no connector selects it |
| ZoneOutcomes.LostStatus | internal/controller/dnszone_controller.go:281-330 | A concrete run, for any zone whose file the parser accepts: the ConfigMap lands, the status write fails, and the next pass goes through without a write and without a checkpoint |
| ZoneReconciler.MarkedReady | internal/controller/dnszone_controller.go:126-207 | A record is ready after the mark of a pass that joins it, and not ready after that of a deletion |
| PassLaws.ReadyRecordsAreServed | internal/controller/dnszone_controller.go:294-330 | For both exits that keep or store a ConfigMap: the lines of every record of the pass stand in the stored zone file in one piece; exactly on the write exit, and on the "no changes" exit up to text behind a tab in lines with the word of the comparison |
| PassLaws.PassServesRecords | internal/controller/dnszone_controller.go:158-331 | At the end of a zone pass that went through and was not refused, its i-th mark makes the i-th record ready, and that record's text is, as above, in the ConfigMap the cluster then has, provided the ConfigMap belongs to this zone object |
| ZoneOutcomes.RefusedYetReady | internal/controller/dnszone_controller.go:195-262 | A concrete run, for any zone and record of which the parser accepts the record and refuses the file: the pass goes through, the record is ready and there is no zone ConfigMap |
| ConnectorSpecs.SelectGoodZones | internal/controller/dnsconnector_controller.go:356-371 | The two nested loops select each zone once, exactly those that are ready or have a condition and a checkpoint |
| ConnectorSpecs.SelectedAreGood | internal/controller/dnsconnector_controller.go:344-372 | The selection is exactly the checkpointed zones that name the connector, each once |
| ConnectorSpecs.SortMaps | internal/controller/dnsconnector_controller.go:394-398 | Sorted by name, same elements |
| ConnectorSpecs.NoConnectorErrors | internal/controller/dnsconnector_construction.go:48-65 | No ConfigMap list the controller fetched can raise the malformed-ConfigMap errors, and all its domains are usable |
| ConnectorSpecs.BuildProvisioned | internal/controller/dnsconnector_controller.go:268-282 | Succeeds if and only if every ConfigMap has the three annotations, and then gives name, domain and serial of each, in order |
| ConnectorReconciler.FetchGoodZones | internal/controller/dnsconnector_controller.go:344-375 | Exactly the connector's checkpointed zones in the state that was listed |
| ConnectorReconciler.FetchGoodZonefileCM | internal/controller/dnsconnector_controller.go:377-401 | One ConfigMap per good zone of a state of the run within the pass, sorted, each as the operator wrote it |
| ConnectorReconciler.BackupOriginal | internal/controller/dnsconnector_controller.go:403-419 | On success a backup exists; it is only ever made from the ConfigMap that was read, and only if there was none |
| ConnectorReconciler.BuildPlan | internal/controller/dnsconnector_controller.go:172-202 | The splice and the volumes computed from what was read; fails exactly on the malformed-ConfigMap errors |
| ConnectorReconciler.Prepare | internal/controller/dnsconnector_controller.go:97-202 | Nothing but a backup is written before everything is computed; a failure writes at most a status that is not ready and lists the same zones as before |
| ConnectorReconciler.Push | internal/controller/dnsconnector_controller.go:204-231 | The deployment first, then the Corefile, in the states their reads still describe; once both have landed the CoreDNS ConfigMap is the one that was read with the planned splice in it, and if nobody else acted the workload has the planned template |
| ConnectorReconciler.Deliver | internal/controller/dnsconnector_controller.go:204-294 | The exact writes of every pass from here on, failed ones too: deployment, Corefile, "updating" status, health check; then either one status that is not ready and lists the same zones as before, or the notices, each of which makes its zone ready, and the ready status with the zones of exactly those ConfigMaps. If nobody else acted, what was pushed stands, and a completed pass changed the zone objects as the notice loop says |
| ConnectorReconciler.NoRollback | internal/controller/dnsconnector_controller.go:204-294 | No write of such a pass restores the Corefile or touches a finalizer; if CoreDNS was not found healthy, they are only the two pushes and statuses that are not ready and list the same zones as before |
| ConnectorReconciler.ReconcileDNSConnector | internal/controller/dnsconnector_controller.go:97-296 | The same for the whole pass, over the checkpointed zones listed and the ConfigMap read in states of the run within the pass; if nobody else acted, every listed validated zone is ready after a completed pass; without a plan it fails and writes at most a backup and a status that is not ready and lists the same zones |
| ConnectorReconciler.ReadyOnlyAfterHealth | internal/controller/dnsconnector_controller.go:204-294 | Ready is earned: a ready status among the writes of any pass, failed or not, is its last write, lists the zones of its plan after every one was told, and follows both pushes and a health check that succeeded |
| ConnectorReconciler.NotifyGoodDNSZones | internal/controller/dnsconnector_controller.go:298-313 | Every validated zone gets the notice once, nothing else, and each write says what the notice says; undisturbed, the effect on the store is NotifyAll |
| ConnectorReconciler.RestoreOriginal | internal/controller/dnsconnector_controller.go:422-453 | Without a backup it fails and writes nothing; with success the Corefile is restored and the finalizer may go |
| ConnectorReconciler.ReconcileDelete | internal/controller/dnsconnector_controller.go:490-521 | Restore, then the finalizer, then the notices, each only after the one before succeeded, and each notice says not ready; on success the finalizer was taken off by this pass, this connector object is gone, and if nobody else acted no listed validated zone is ready; without a backup it fails and writes nothing |
| Safety.GoneForGood | internal/controller/dnsconnector_controller.go:490-521 | Over any run, a connector object that is gone does not come back: one created later has another uid |
| ConnectorReconciler.Reconcile | internal/controller/dnsconnector_controller.go:61-94 | A new connector gets the finalizer; for a deleted one the whole contract of ReconcileDelete holds, for any other that of ReconcileDNSConnector; exact writes in each case |
| PassLaws.ActiveIsTruthful | internal/controller/dnsconnector_controller.go:204-291 | When a pass reaches Active, the reported domains are exactly those of the managed blocks in the Corefile of its plan, one each, and each reported zone is that of the fetched ConfigMap by name, domain and the SOA serial of the validated file in it; the Corefile that was read must have closed, operator-spaced markers or none |
| PassLaws.ActiveInRun | internal/controller/dnsconnector_controller.go:97-291 | The same for every pass that went through in any run: what is asked of the Corefile that was read follows from the invariant of runs, if it holds of the Corefile that users or a restore had put there last |
| PassLaws.BlocksAreMounted | internal/controller/dnsconnector_construction.go:112-243 | And the file of each block is mounted in every container and backed by the ConfigMap of its zone |
| PassLaws.BlocksReadTheirFiles | internal/controller/dnsconnector_construction.go:68-243 | By the rules of mounts, volumes and projected keys: a container that opens the file a block names reads the zone file of a ConfigMap of its domain, no other, and cannot write it |
| PassLaws.EachMapMountedIff | internal/controller/dnsconnector_construction.go:112-243 | With collision-free names and coherent kept entries, every fetched ConfigMap is itself the one that is mounted in every container if and only if no two of them have the same domain |
| Notices.DueIff | internal/controller/dnsconnector_controller.go:307-313 | A notice changes a validated zone if and only if status, reason, message or observed generation of its condition differ |
| Notices.NotifyAllFacts | internal/controller/dnsconnector_controller.go:298-313 | A pass over the zones changes the store if and only if a notice is due, and leaves none due |
| Notices.NotifyAllSays | internal/controller/dnsconnector_controller.go:298-313 | After the loop every validated zone it went over says what the notice says, in its own generation |
| Notices.PassesComeToRest | internal/controller/dnsconnector_controller.go:97-313 | Reconcile-loop termination: a completed, undisturbed connector pass changes zone objects if and only if a validated good zone does not carry the notice yet, and the next one, whenever it runs and in whatever order it lists the zones, changes no zone object, so it triggers no further pass |

## Left out

- The zone parser behind `validateRecords` is an uninterpreted predicate on text, fixed for a run.
- The controller-runtime client, its cache and watches, leader election and logging: reads return the current store, and each object is reconciled by one worker.
- Sleeps, polling and timeouts: the health check is a step that succeeds or fails.
- Eventual delivery between the controllers: nothing is claimed about when a pass starts; `PassesComeToRest` is about passes that nobody disturbs.
- Status messages: the texts of parser and API errors in them are left out.
- The 15-way switch on the record type, which treats all listed types alike and rejects others.
- The three kinds of workload behind one pod template, and replica counts.
- Finalizers of other parties, foreground deletion, and deletion marks on ConfigMaps.
- Hand-written markers with a single space: `EveryBlockOnce` covers them, but the one-blank-line law and the reader's law assume closed blocks and operator-spaced markers, or none (`Tidy`).
- Edits of `CMPrefix`, several connectors on one Corefile, and outside changes to zone ConfigMaps or the backup.
- Errors of Go's text/template and of the clock, which cannot occur with these templates.
- The wait for the record watch and the requeue bookkeeping of the manager.
- PassLaws.ReadyRecordsAreServed: on the "no changes" exit it exempts text behind a tab in lines with the word "Serial", because the comparison does.
- PassLaws.PassServesRecords: speaks of the record as it was listed; the record's own controller may have changed it when it is marked.
- Sorting by name is an insertion sort of the same order; sort.Slice itself is not modelled.
