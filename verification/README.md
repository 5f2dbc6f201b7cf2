# Verification of the application lifecycle controller

This Dafny project models the logic of the controller that creates, upgrades, updates and deletes application
instances on a Rancher cluster, and proves properties of the model. To verify it, use
`dafny verify dfyconfig.toml`.

## What is modelled

**Instances and workers** (`Cluster`, `Worker`, `Pool`, `Executor`, `FirstError`, `Decision`, `Leftovers`). The cluster
maps an instance name to its application object, workload, volume and claim. The three client operations are methods
of a client object that rewrite one such slot, proved equal to value-level operations for every set of failing API
calls; what these leave behind is stated through the failing calls. The same operations are cut into steps of at most
one changing call. A run of `createUpgradeApps` is any interleaving of these steps. The main results are that every
interleaving has the outcome of the sequential execution and that the list whose first element decides about a
rollback can start with any of the errors.

**Planning, charts, rollback** (`Planner`, `Charts`, `Rollback`, `RollbackCases`, `Update`, `CatalogWait`). The
planning loops work on mutable records, backups share the annotation object of the running instance, and charts live
in a directory tree with a backup tree. A failed update is a listing of the cluster, the backups made of what it
shows, the forward run in any interleaving and the replay of the backups in any interleaving.

**Chart data** (`AppMap`, `AppData`, `ChartData`, `ChartMeaning`, `Charting`, `ChartLoop`, `Volumes`). `SetChartData`
is modelled on mutable map objects, since it relies on `MapMerge` deleting keys from the request, and is proved against
a function on values about which the precedence, isolation and storage properties are stated, field by field.

**Sequences of calls** (`History`, `HistoryCases`). What the annotations and volumes on the cluster say after any
sequence of successful calls, which is what the next call plans by.

**Selection and creation** (`Selection`, `Naming`, `CreateApp`), **deletion** (`DeleteApps`, `DeleteErrors`), **locks**
(`Locks`, `InstanceLocks`), **cluster upgrade** (`UpgradeCluster`), **shared storage** (`SharedStorage`), **cron lines**
(`Cron`) and **accounting** (`Accounting`) each model one component. `Text` holds the Go string routines they use.

Failing calls are inputs: a worker, a creation or a deletion takes the set of calls that fail. Clocks, polling loops
and the network are not modelled beyond that; a wait ends in the awaited state or fails.

## What the code does other than intended

The model keeps the behaviour of the code. Each item names the exact condition and, where there is one, a witness.

- The planner records the size and, without a requested version, the requested version of the last running instance,
  not of the match: `Planner.SizesRecordedExactly`, `Planner.VersionsRecordedExactly`, `Planner.WrongSizeWitness`. So
  a new instance can be planned as a re-creation: `Charting.NewInstanceAction`; what that does to volumes is
  `Volumes.WrongRecord` and `Volumes.WrongRecordReused`.
- A request without weekdays prints a cron line the parser indexes past the end of (`Cron.RoundTrip`).
- A rollback does not remove new instances (`Rollback.RestoredExactly`, `RollbackCases.NewInstanceStays`) and does not
  always restore volumes (`Rollback.VolumeAfterReplay`, `RollbackCases.VolumeKeepsNewSize`); whether it happens can
  depend on the scheduler (`Decision.RollbackEntered`).
- Without group ids the backup shares the map that is rewritten (`ChartLoop.BackUpAndChartAll`), so that a rollback
  leaves the annotations of the update: `History.RollbackRecordsExactly`, `HistoryCases.RecordIsBroken`.
- With a group id twice the backed-up chart can be lost: `Charts.ChartRestoredExactly`, `Charts.SharedTemplateWitness`.
- A failed lookup during a deletion reads as "nothing to delete": `DeleteApps.ReportedButRunning`,
  `SharedStorage.DeletionRemoves`.
- A released volume makes one creation fail: `Volumes.ReleasedVolumeExactly`,
  `Volumes.ReleasedVolumeCostsOneCreation`.
- A claim that is not bound makes a change of the shared size fail after the volume has been replaced:
  `SharedStorage.ConvergesExactly`.
- An application may not be named so that its lock key is "UpdateNodeState" (`Locks.SafeExactly`); checking and
  locking in two steps is not safe (`Locks.TwoStepSafeExactly`, `Locks.RaceWitness`); a failed clean-up locks the
  cluster for good (`Locks.AbandonedForever`); and different keys do not keep two requests off one instance
  (`InstanceLocks.HoldersHaveOwnInstances`, `InstanceLocks.SharedInstance`).
- The upgrade report never shows a failed controller: `UpgradeCluster.ControllerUnnoticed`.
- An application created from the catalog cannot be listed again: `CreateApp.FromCatalogIsUnreadable`.
- Deleting metadata or an application misses charts and volumes whose names were shortened or normalized:
  `Naming.ChartFoundExactly`, `Naming.SharedVolumeFoundExactly`.
- The memory check wraps at 32 bits: `Accounting.AdmittedInGeneral`.

The loop that prints a wrapping interval of hours would not end for a last hour above 23 (`Cron.WrapLoopEnds`);
requests are validated before (`src/cisco.com/son/apphcd/api/v1/appmanager/appmanager.pb.validate.go:851-863`), so no
request has one.

## Model

| member | source | states |
|---|---|---|
| `Cluster.SuccessRunsRequested` | src/cisco.com/son/apphcd/app/grpc/appmanager/adapters/rancher/apiclient/appinstance.go:32-285 | An operation that reports success leaves its instance running the requested version (the template's default when a creation asks for none) with the job's annotations and state, and the catalog had it; an upgrade stays in the template its instance was deployed from, a creation uses the job's. |
| `Cluster.Client.DeleteAppStorage` | src/cisco.com/son/apphcd/app/grpc/appmanager/adapters/rancher/apiclient/appstorage.go:109-125 | Deletes claim, then volume, one object at a time; for every set of failing calls the slot and the outcome are those of the value-level operation, and other instances are untouched. A list that fails is not reported. |
| `Cluster.Client.DeleteAppInstance` | src/cisco.com/son/apphcd/app/grpc/appmanager/adapters/rancher/apiclient/appinstance.go:289-350 | Workload, application, then storage when asked; success when the application is not found, including when looking it up failed. |
| `Cluster.Client.PostDeploymentAction` | src/cisco.com/son/apphcd/app/grpc/appmanager/adapters/rancher/apiclient/common.go:598-648 | Waits for the pods of an enabled instance, removes the workload of a disabled one. |
| `Cluster.Client.CreateStorage` | src/cisco.com/son/apphcd/app/grpc/appmanager/adapters/rancher/apiclient/appinstance.go:76-156 | Cleans up a released volume, makes volume and claim where there is none; the identifier of the deleted released volume still counts as a volume. |
| `Cluster.Client.CreateAppInstance` | src/cisco.com/son/apphcd/app/grpc/appmanager/adapters/rancher/apiclient/appinstance.go:32-197 | Template and version check, storage, application (which fails when there is one of that name), notes, pods, in this order, with the failure of each call. |
| `Cluster.Client.UpgradeAppInstance` | src/cisco.com/son/apphcd/app/grpc/appmanager/adapters/rancher/apiclient/appinstance.go:200-286 | Looks the version up in the template of the running application's external id, replaces labels and annotations, upgrades, waits for the bound volume of an instance that has a size. |
| `Worker.StepsAddUp` | src/cisco.com/son/apphcd/app/grpc/appmanager/adapters/rancher/handle_appsdata.go:37-73 | The API-call-sized steps of a goroutine, left alone, add up to the whole operation for every action and every set of failures, with the "cannot recreate" wrapping of errors of the second half of a re-creation only. |
| `Executor.RunKeepsInv` | src/cisco.com/son/apphcd/app/grpc/appmanager/adapters/rancher/handle_appsdata.go:22-84 | In every state of every interleaving each worker is on the way to the result it would have alone, the lists hold exactly the entries of the stopped workers, and nothing outside the plan has changed (append taken as atomic). |
| `Executor.InterleavingRefinesSequential` | src/cisco.com/son/apphcd/app/grpc/appmanager/adapters/rancher/handle_appsdata.go:22-84 | Every complete run of workers with distinct names ends with the cluster of the sequential execution, and with the done entries and errors of the workers run alone, as multisets. |
| `Executor.Confluence` | src/cisco.com/son/apphcd/app/grpc/appmanager/adapters/rancher/handle_appsdata.go:22-84 | Any two complete interleavings agree on the cluster, the done list and the error list up to order. |
| `Executor.NoErrorMeansDone` | src/cisco.com/son/apphcd/app/grpc/appmanager/adapters/rancher/handle_appsdata.go:79-83 | A nil error means every started instance succeeded and runs what was requested, the done list is a permutation of exactly the started instances, and nothing else changed. |
| `FirstError.AnyFailureCanBeFirst` | src/cisco.com/son/apphcd/app/grpc/appmanager/adapters/rancher/handle_appsdata.go:79-81 | For every failing worker there is an interleaving in which its error is the one returned. |
| `FirstError.RollbackDecision` | src/cisco.com/son/apphcd/app/grpc/appmanager/adapters/rancher/adapter.go:750-753 | Some interleaving fails asking for a rollback exactly when some worker fails with a rollback text, and some fails without asking for one exactly when some worker fails with another text: the decision is the scheduler's when both kinds occur. |
| `Decision.AsksExactly` | src/cisco.com/son/apphcd/app/grpc/appmanager/adapters/rancher/adapter.go:30-33 | Through the failing calls: a creation or upgrade fails with a text that asks for a rollback exactly when it is enabled, everything before went through and its pods do not get ready; a failing re-creation does exactly when its deletion half succeeded. |
| `Decision.DeletionFailsExactly` | src/cisco.com/son/apphcd/app/grpc/appmanager/adapters/rancher/apiclient/appinstance.go:289-350 | When a deletion, or the deletion half of a re-creation, fails, through the failing calls. |
| `Decision.RollbackEntered` | src/cisco.com/son/apphcd/app/grpc/appmanager/adapters/rancher/adapter.go:750-753 | Some interleaving enters the rollback exactly when the charts are not from the catalog, something is backed up, and some worker has pods that do not get ready at the end of a creation or upgrade, or fails in the creation half of a re-creation; some fails without entering it exactly when some worker fails in another way, or any fails and a guard is closed. |
| `FirstError.ErrorsExactly` | src/cisco.com/son/apphcd/app/grpc/appmanager/adapters/rancher/handle_appsdata.go:79-84 | In every complete interleaving the list of errors is empty exactly when no worker, run alone, fails. |
| `Rollback.BackupAsksForOldVersion` | src/cisco.com/son/apphcd/app/grpc/appmanager/adapters/rancher/adapter.go:967-1003 | The replay job of a backup asks for the version found running, always deletes storage, and is a re-creation exactly when the policy says so or the versions are equal. |
| `Rollback.InversePlan` | src/cisco.com/son/apphcd/app/grpc/appmanager/adapters/rancher/adapter.go:558-793 | From a listing, the backups made of what it shows (with or without group ids) and any forward run: a replay of those backups that reports success leaves every backed-up instance at the version it was listed with, exactly when that version is not empty or the replay does not fall back on the template's default. |
| `Rollback.ReplayIsInverse` | src/cisco.com/son/apphcd/app/grpc/appmanager/adapters/rancher/adapter.go:967-1003 | The replay plan made from a listing has one job per name, each an upgrade or re-creation that deletes storage and asks for the version the cluster runs under that name. |
| `Rollback.OutsideReplay` | src/cisco.com/son/apphcd/app/grpc/appmanager/adapters/rancher/adapter.go:748-793 | Instances of neither plan are untouched; planned instances that were not backed up stay as the forward run left them. |
| `Rollback.RestoredExactly` | src/cisco.com/son/apphcd/app/grpc/appmanager/adapters/rancher/adapter.go:748-793 | A successful rollback restores the versions of the whole cluster exactly when none of the new instances is left behind: for each of them the template lookup, the version check, the storage or the creation of the application object has failed. The code does not remove those that were made. |
| `Rollback.OthersAreNew` | src/cisco.com/son/apphcd/app/grpc/appmanager/adapters/rancher/adapter.go:569-606 | A planned instance that was not backed up had no application object before the update, when no requested name belongs to an instance the query does not select. |
| `RollbackCases.NewInstanceStays` | src/cisco.com/son/apphcd/app/grpc/appmanager/adapters/rancher/adapter.go:748-793 | For every request for a new group id beside a running one whose upgrade times out: the rollback is entered and succeeds, and the new instance is still there. |
| `Rollback.VolumeAfterReplay` | src/cisco.com/son/apphcd/app/grpc/appmanager/adapters/rancher/adapter.go:748-793 | The recorded volume size is back after a successful replay of the backups exactly when the forward run left the right volume or, for a re-creation, left the application in place or no volume where one is needed. |
| `RollbackCases.VolumeKeepsNewSize` | src/cisco.com/son/apphcd/app/grpc/appmanager/adapters/rancher/adapter.go:748-793 | For every update without group ids that resizes the volume and then cannot make the application: the rollback is entered and succeeds, and the volume keeps the new size. |
| `Planner.GetBackupData` | src/cisco.com/son/apphcd/app/grpc/appmanager/adapters/rancher/adapter.go:967-1003 | A backup exists exactly when the size and state annotations are numbers; it asks for the version that runs, comes from the one that was asked for, deletes storage, carries the annotated size and state, and shares the annotation and label objects. |
| `Planner.CompareAll` | src/cisco.com/son/apphcd/app/grpc/appmanager/adapters/rancher/adapter.go:572-605 | The inner loop: action and current version from the instance of the same name, size and (without a requested version) requested version from the last running instance; an unparsable match ends the planning. |
| `Planner.CompareRequested` | src/cisco.com/son/apphcd/app/grpc/appmanager/adapters/rancher/adapter.go:569-606 | The outer loop over all requested instances, with the concatenated backups. |
| `Planner.BackUpRunning` | src/cisco.com/son/apphcd/app/grpc/appmanager/adapters/rancher/adapter.go:560-568 | The loop without group ids: one backup per running instance, in order, or none at all exactly when one of them cannot be made. |
| `Planner.Classification` | src/cisco.com/son/apphcd/app/grpc/appmanager/adapters/rancher/adapter.go:574-589 | With distinct running names: Create exactly when no running instance has the name, otherwise Recreate exactly when the policy says so or the running versions are equal, else Upgrade; current version is the version annotation of the match. |
| `Planner.ComparedKeeps` | src/cisco.com/son/apphcd/app/grpc/appmanager/adapters/rancher/adapter.go:569-606 | A version that is requested is kept, and so is what was decided about storage; without running instances, or without a match, versions stay as they were. |
| `Planner.SizesRecordedExactly` | src/cisco.com/son/apphcd/app/grpc/appmanager/adapters/rancher/adapter.go:599-603 | Every match is recorded with its own size exactly when all running instances have one size. |
| `Planner.VersionsRecordedExactly` | src/cisco.com/son/apphcd/app/grpc/appmanager/adapters/rancher/adapter.go:597-601 | Without a requested version, every match is recorded with its own requested version exactly when all running instances have one requested version. |
| `Planner.WrongSizeWitness` | src/cisco.com/son/apphcd/app/grpc/appmanager/adapters/rancher/adapter.go:597-603 | Two running instances of different sizes: the first is recorded with the size of the second, and with its requested version if the request names none and they differ. |
| `Planner.BackupsExact` | src/cisco.com/son/apphcd/app/grpc/appmanager/adapters/rancher/adapter.go:589-596 | One backup per requested instance that is running, no other entry, and the names of the backups are distinct. |
| `Charting.BackUpAndChart` | src/cisco.com/son/apphcd/app/grpc/appmanager/adapters/rancher/adapter.go:558-568 | When the planned record is the running one, the version annotation of the backup becomes the new version; when it is another record the backup keeps the old one. The version the backup asks for is the old one either way. |
| `ChartLoop.SetAll` | src/cisco.com/son/apphcd/app/grpc/appmanager/adapters/rancher/adapter.go:671-674 | Charting all records of a plan in place: it fails exactly when one of them cannot be charted, and otherwise leaves each as the fresh request charts it, although the request loses its reserved keys on the way and all records are rewritten through shared maps. |
| `ChartLoop.BackUpAndChartAll` | src/cisco.com/son/apphcd/app/grpc/appmanager/adapters/rancher/adapter.go:560-674 | Without group ids: all running records are backed up and then charted themselves, and the map of every backup ends with the annotations of the update. |
| `Charting.NewInstanceAction` | src/cisco.com/son/apphcd/app/grpc/appmanager/common/chartutils/chartutils.go:574-579 | A requested instance without a running match ends as a re-creation exactly when the size its decision is made on (that of the reused chart, or of the last running instance) is known and is not the requested one. |
| `Volumes.SuccessVolume` | src/cisco.com/son/apphcd/app/grpc/appmanager/adapters/rancher/apiclient/appinstance.go:76-109 | The volume after a success: a new one of the job's size where it was replaced or made, otherwise the size there was. |
| `Volumes.AgreesExactly` | src/cisco.com/son/apphcd/app/grpc/appmanager/adapters/rancher/apiclient/appinstance.go:343-349 | After a success the volume agrees with the job's size exactly when it was replaced, was made, or agreed before. |
| `Volumes.AgreementIsKept` | src/cisco.com/son/apphcd/app/grpc/appmanager/common/chartutils/chartutils.go:570-595 | A volume that agrees with its recorded size agrees with its final size after the storage decision and a success; with reused values it is replaced exactly when the request gives a different positive size. |
| `Volumes.WrongRecord` | src/cisco.com/son/apphcd/app/grpc/appmanager/common/chartutils/chartutils.go:570-595 | Without reused values, the exact condition for a volume to agree when the recorded size is not its own. |
| `Volumes.WrongRecordReused` | src/cisco.com/son/apphcd/app/grpc/appmanager/common/chartutils/chartutils.go:570-595 | With reused values, where one chart's size is recorded for every instance: the final size is the requested one if positive, else the recorded one, and the exact condition for the volume to agree with it. |
| `Volumes.PlanAgrees` | src/cisco.com/son/apphcd/app/grpc/appmanager/adapters/rancher/handle_appsdata.go:22-84 | The same condition for every instance of a plan in every interleaving without errors. |
| `Volumes.NewInstanceDeploysExactly` | src/cisco.com/son/apphcd/app/grpc/appmanager/adapters/rancher/apiclient/appinstance.go:32-197 | Whether an instance that had no application object has one after its worker, through the failing calls. |
| `Volumes.RecreationLeavesAppExactly` | src/cisco.com/son/apphcd/app/grpc/appmanager/adapters/rancher/apiclient/appinstance.go:289-350 | Whether a running instance has an application object after a re-creation, through the failing calls of both halves. |
| `Volumes.CreationSucceedsExactly` | src/cisco.com/son/apphcd/app/grpc/appmanager/adapters/rancher/apiclient/appinstance.go:32-197 | A creation succeeds exactly when template, version, storage, application, notes and the step for its state all do, and no application of that name exists. |
| `Volumes.ReleasedVolumeExactly` | src/cisco.com/son/apphcd/app/grpc/appmanager/adapters/rancher/apiclient/common.go:80-103 | Without failing calls a creation of an offered version succeeds exactly when the instance does not exist and does not have a released volume without a claim where it wants one. |
| `Volumes.ReleasedVolumeCostsOneCreation` | src/cisco.com/son/apphcd/app/grpc/appmanager/adapters/rancher/apiclient/common.go:80-103 | A released volume without a claim makes one creation fail at the wait for the bound volume; the next one succeeds with the right size. |
| `Volumes.StorageIsSafe` | src/cisco.com/son/apphcd/app/grpc/appmanager/adapters/rancher/apiclient/appinstance.go:289-350 | Whatever fails, a claim and a claimed or never released volume survive unchanged unless the job deletes storage and its application object is there. |
| `Volumes.PlanStorageIsSafe` | src/cisco.com/son/apphcd/app/grpc/appmanager/adapters/rancher/handle_appsdata.go:22-84 | The same for every instance after any complete interleaving with any errors. |
| `Volumes.DeletedExactly` | src/cisco.com/son/apphcd/app/grpc/appmanager/adapters/rancher/apiclient/appinstance.go:303-349 | A successful deletion with storage leaves nothing exactly when the application object was there or there was no storage: otherwise the storage stays behind. |
| `Volumes.SuccessWorkload` | src/cisco.com/son/apphcd/app/grpc/appmanager/adapters/rancher/apiclient/common.go:598-648 | A success leaves the workload of an enabled instance and none of a disabled one. |
| `Leftovers.UpgradeLeaves` | src/cisco.com/son/apphcd/app/grpc/appmanager/adapters/rancher/apiclient/appinstance.go:200-286 | What an upgrade leaves whether or not it succeeds: annotations are replaced before the upgrade, the version changes with it, the storage never does. |
| `Leftovers.CreationLeavesStorage` | src/cisco.com/son/apphcd/app/grpc/appmanager/adapters/rancher/apiclient/appinstance.go:76-156 | Volume and claim after a creation, whatever fails later. |
| `Leftovers.CreationLeavesApp` | src/cisco.com/son/apphcd/app/grpc/appmanager/adapters/rancher/apiclient/appinstance.go:157-186 | The application object of a creation is the job's template, version or default, and annotations from the moment it is made, and there is none otherwise. |
| `Leftovers.DeletionLeaves` | src/cisco.com/son/apphcd/app/grpc/appmanager/adapters/rancher/apiclient/appinstance.go:289-350 | What a deletion leaves of application, workload, claim and volume, for every set of failing calls; a dropped claim releases the volume. |
| `Leftovers.StateIsNoted` | src/cisco.com/son/apphcd/app/grpc/appmanager/adapters/rancher/apiclient/appinstance.go:153-156 | The state annotation is 1 for an enabled instance and 0 for a disabled one, and no other annotation changes. |
| `Update.VolumeConverges` | src/cisco.com/son/apphcd/app/grpc/appmanager/adapters/rancher/adapter.go:569-788 | With group ids: an instance with a running match whose volume agrees with its recorded size ends with a volume of its final size, or with none, in every interleaving without errors. |
| `Update.RunningVolumeConverges` | src/cisco.com/son/apphcd/app/grpc/appmanager/adapters/rancher/adapter.go:558-788 | Without group ids, where the running record itself is planned: the same. |
| `Update.NewVolumeConverges` | src/cisco.com/son/apphcd/app/grpc/appmanager/adapters/rancher/adapter.go:569-788 | An instance that does not exist yet: without errors its volume agrees with its size exactly when it had none or one of that size. |
| `Update.ChartedConverges` | src/cisco.com/son/apphcd/app/grpc/appmanager/common/chartutils/chartutils.go:570-595 | The same for any charted record that is to be upgraded or re-created, on the size its decision is made on. |
| `Update.JobIsDecided` | src/cisco.com/son/apphcd/app/grpc/appmanager/common/chartutils/chartutils.go:570-595 | The job made from a charted record carries out the storage decision on the size the planner, or the reused chart, recorded. |
| `Charts.Store.Rewrite` | src/cisco.com/son/apphcd/app/grpc/appmanager/adapters/rancher/adapter.go:666-713 | The loop that backs up and rewrites charts; it goes through exactly when no directory operation on the way fails, copying only charts that are there by then. |
| `Charts.Store.Restore` | src/cisco.com/son/apphcd/app/grpc/appmanager/adapters/rancher/adapter.go:753-775 | The rollback loop; it goes through exactly when every chart to be restored was backed up and no directory operation fails. |
| `Charts.LastWriteStays` | src/cisco.com/son/apphcd/app/grpc/appmanager/adapters/rancher/adapter.go:697-713 | A rewritten place holds the chart of the last instance whose new directory covers it, and nothing else of that directory. |
| `Update.NewChartIsWritten` | src/cisco.com/son/apphcd/app/grpc/appmanager/adapters/rancher/adapter.go:697-713 | The chart of every planned instance is written under its template and planned version, unless a later instance writes over it. |
| `Charts.BackupHolds` | src/cisco.com/son/apphcd/app/grpc/appmanager/adapters/rancher/adapter.go:671-695 | After the loop the backup of a template holds the old chart directory as it was before the loop, when no earlier new chart overlaps it. |
| `Charts.RollbackRestores` | src/cisco.com/son/apphcd/app/grpc/appmanager/adapters/rancher/adapter.go:671-779 | After a rewrite and a restore every chart is as before, except new charts of planned instances that are not themselves restored. |
| `Charts.RestoredPart` | src/cisco.com/son/apphcd/app/grpc/appmanager/adapters/rancher/adapter.go:671-779 | When the backed-up version is not the one asked for, a restored directory gets back exactly the part the backup contains. |
| `Charts.ChartRestoredExactly` | src/cisco.com/son/apphcd/app/grpc/appmanager/adapters/rancher/adapter.go:671-779 | For any plan: a chart that is to be restored, and that the update does not write again itself, is as before exactly when the last planned instance of its template has it as old chart and no earlier instance has written over it. |
| `Charts.SharedTemplateWitness` | src/cisco.com/son/apphcd/app/grpc/appmanager/adapters/rancher/adapter.go:674-695 | Two planned instances of one template and unchanged version: the second replaces the backup by the first one's new chart. |
| `Update.ChartBelongsExactly` | src/cisco.com/son/apphcd/app/grpc/appmanager/adapters/rancher/adapter.go:589-596 | The chart a rollback restores is the one that was backed up exactly when the version annotation names the deployed version. |
| `Update.UpdateRollsBackCharts` | src/cisco.com/son/apphcd/app/grpc/appmanager/adapters/rancher/adapter.go:671-779 | With distinct templates and right annotations, rolling an update back leaves every chart as it was except the new charts of planned instances. |
| `Update.BackupsNameOldCharts` | src/cisco.com/son/apphcd/app/grpc/appmanager/adapters/rancher/adapter.go:753-761 | Every entry of the backup list names the old chart of a requested running instance. |
| `History.AlwaysRecorded` | src/cisco.com/son/apphcd/app/grpc/appmanager/adapters/rancher/adapter.go:101-793 | After any sequence of successful creations, updates and upgrades from the empty cluster, in any schedules, made of planned records that fit the cluster (`RunningFits` and `RequestedFitsExactly` say when) and without swallowed lookups, every instance is annotated with the template and version that are deployed, with a readable state and with the size of its volume, and no volume is left without an application. |
| `History.CallKeepsRecorded` | src/cisco.com/son/apphcd/app/grpc/appmanager/adapters/rancher/adapter.go:101-793 | One successful call keeps that. |
| `History.EveryListingIsReadable` | src/cisco.com/son/apphcd/app/grpc/appmanager/adapters/rancher/appsdata.go:143-255 | On such a cluster no request finds an instance it cannot read. |
| `History.RunningFits` | src/cisco.com/son/apphcd/app/grpc/appmanager/adapters/rancher/adapter.go:558-568 | The record of a running instance, planned without group ids, is one such a call can be made of. |
| `History.RequestedFitsExactly` | src/cisco.com/son/apphcd/app/grpc/appmanager/adapters/rancher/adapter.go:569-606 | A requested instance, planned with group ids, is one exactly when it does not run yet or has the size of the last running instance. |
| `History.FoundIsAnnotated` | src/cisco.com/son/apphcd/app/grpc/appmanager/adapters/rancher/adapter.go:569-606 | On such a cluster the annotations of the running instances name their charts, as rolling charts back needs. |
| `History.RollbackRecordsExactly` | src/cisco.com/son/apphcd/app/grpc/appmanager/adapters/rancher/adapter.go:558-793 | A rollback without group ids leaves the record of an instance right exactly when the update asked for the version that ran and the volume has the size the update would have given it. |
| `HistoryCases.RecordIsBroken` | src/cisco.com/son/apphcd/app/grpc/appmanager/adapters/rancher/adapter.go:558-793 | For every upgrade without group ids to another version that times out: the rollback succeeds, and the instance is annotated with a version it does not run. |
| `AppMap.MapMerge` | src/cisco.com/son/apphcd/app/common/map.go:58-68 | In place: the excluded keys disappear from the source object, and what is left of it overrides the destination. |
| `AppMap.AddEntries` | src/cisco.com/son/apphcd/app/common/map.go:65-67 | Adding all entries of a map one by one, in any order, is the union in favour of the added map. |
| `AppMap.ReuseEntries` | src/cisco.com/son/apphcd/app/grpc/appmanager/common/chartutils/chartutils.go:418-426 | The reused entries fill in exactly the keys that have no value yet. |
| `ChartData.SetChartData` | src/cisco.com/son/apphcd/app/grpc/appmanager/common/chartutils/chartutils.go:305-637 | The whole procedure on the mutable record and request: it fails exactly when the earlier values cannot be read, otherwise the record becomes its charted value and the request has lost its reserved keys. |
| `ChartData.ReuseValues` | src/cisco.com/son/apphcd/app/grpc/appmanager/common/chartutils/chartutils.go:339-484 | The reuse branch with its two parse errors. |
| `ChartData.MergeRequest` | src/cisco.com/son/apphcd/app/grpc/appmanager/common/chartutils/chartutils.go:486-525 | Annotations, labels (merged twice, the second time unfiltered) and the three other maps. |
| `ChartData.MergeLabels` | src/cisco.com/son/apphcd/app/grpc/appmanager/common/chartutils/chartutils.go:498-516 | The second, unfiltered label merge adds nothing, because the first one has removed the reserved keys from the request. |
| `ChartData.DecideStorage` | src/cisco.com/son/apphcd/app/grpc/appmanager/common/chartutils/chartutils.go:570-595 | Action, deletion flag and final size as decided from the recorded and the requested size. |
| `ChartData.SetPorts` | src/cisco.com/son/apphcd/app/grpc/appmanager/common/chartutils/chartutils.go:551-568 | The ports of the request replace the others, with normalized names. |
| `ChartData.EnvAfter` | src/cisco.com/son/apphcd/app/grpc/appmanager/common/chartutils/chartutils.go:332-637 | The final environment is defaults, then reused values, then the request, then the managed variables, each overriding the ones before. |
| `ChartData.EnvPrecedence` | src/cisco.com/son/apphcd/app/grpc/appmanager/common/chartutils/chartutils.go:332-637 | The same for every single variable. |
| `ChartMeaning.FilesAfter` | src/cisco.com/son/apphcd/app/grpc/appmanager/common/chartutils/chartutils.go:339-525 | Configuration files and secrets: the request's replace those of the reused chart, which replace the record's, and none is lost. |
| `ChartMeaning.FilePrecedence` | src/cisco.com/son/apphcd/app/grpc/appmanager/common/chartutils/chartutils.go:339-525 | The same for every single file and secret. |
| `ChartMeaning.LabelPrecedence` | src/cisco.com/son/apphcd/app/grpc/appmanager/common/chartutils/chartutils.go:437-516 | A label the controller does not set has the request's value unless it is reserved, else the record's, else the reused chart's. |
| `ChartMeaning.ControllerLabels` | src/cisco.com/son/apphcd/app/grpc/appmanager/common/chartutils/chartutils.go:509-516 | The monitoring label is the application's name and a draft is labelled with its instance. |
| `ChartMeaning.SpecAfter` | src/cisco.com/son/apphcd/app/grpc/appmanager/common/chartutils/chartutils.go:378-600 | Description, image, ports, schedule, shared storage, state and versions of a charted record: from the request, else the reused chart, else the record; requested ports replace all others under normalized names. |
| `ChartMeaning.NotesAfter` | src/cisco.com/son/apphcd/app/grpc/appmanager/common/chartutils/chartutils.go:527-549 | The annotations name the schedule of a periodic instance and the image parts of the request. |
| `ChartMeaning.InstanceIsTold` | src/cisco.com/son/apphcd/app/grpc/appmanager/common/chartutils/chartutils.go:604-636 | Names, group, version, endpoints and the two secrets are in the environment, whatever request and reused chart say. |
| `ChartMeaning.DirectoriesByDefault` | src/cisco.com/son/apphcd/app/grpc/appmanager/common/chartutils/chartutils.go:332-336 | The four directory variables have their default unless the request or the reused chart sets them. |
| `ChartMeaning.HelmIsNotReused` | src/cisco.com/son/apphcd/app/grpc/appmanager/common/chartutils/chartutils.go:390-399 | Annotations of Helm on an earlier chart are not carried over. |
| `ChartMeaning.OthersAreReused` | src/cisco.com/son/apphcd/app/grpc/appmanager/common/chartutils/chartutils.go:390-399 | Any other annotation of an earlier chart is, where the record has no value and the request does not set it. |
| `ChartMeaning.ReusedSizeReads` | src/cisco.com/son/apphcd/app/grpc/appmanager/common/chartutils/chartutils.go:446-462 | A printed size reads back from a reused chart, and a bare unit as no storage. |
| `ChartMeaning.JobAfter` | src/cisco.com/son/apphcd/app/grpc/appmanager/adapters/rancher/handle_appsdata.go:22-60 | The job of a charted record: enabled in state 1, its template, versions and annotations those of the record. |
| `ChartData.RequestCannotReach` | src/cisco.com/son/apphcd/app/grpc/appmanager/common/chartutils/chartutils.go:486-508 | Requests that differ in labels and annotations only lead to records that agree on every reserved key, on the environment, the versions and the storage decision. |
| `ChartData.StrippedIsEnough` | src/cisco.com/son/apphcd/app/common/map.go:58-63 | The keys that a call deletes from the request had no effect. |
| `Charting.AnnotationPrecedence` | src/cisco.com/son/apphcd/app/grpc/appmanager/common/chartutils/chartutils.go:390-493 | An annotation the controller does not set itself has the value of the request, or else of the record, or else of the earlier chart. |
| `Charting.ServedAlike` | src/cisco.com/son/apphcd/app/grpc/appmanager/adapters/rancher/adapter.go:667-671 | Serving several instances with one request gives each of them what the fresh request would. |
| `Charting.ChartedAnnotations` | src/cisco.com/son/apphcd/app/grpc/appmanager/common/chartutils/chartutils.go:495-602 | The version annotation is the version to be deployed, the volume annotation the final size, and action, deletion and size follow the decision. |
| `Charting.ChartedKeepsIdentity` | src/cisco.com/son/apphcd/app/grpc/appmanager/common/chartutils/chartutils.go:486-493 | Without reused values no request changes an annotation that identifies an instance. |
| `Cron.PeriodicToCronString` | src/cisco.com/son/apphcd/app/grpc/appmanager/common/common.go:227-289 | Prints exactly the specified line, wrapping hours and weekday numbers included. |
| `Cron.WrapHours` | src/cisco.com/son/apphcd/app/grpc/appmanager/common/common.go:234-252 | The wrap-around loop lists the hours from the first to the restart of the clock and from 0 to the last, with a decreasing distance. |
| `Cron.WrapLoopEnds` | src/cisco.com/son/apphcd/app/grpc/appmanager/common/common.go:234-252 | For a wrapping interval the loop ends exactly when the last hour is at most 23. |
| `Cron.WrappedHoursMeaning` | src/cisco.com/son/apphcd/app/grpc/appmanager/common/common.go:234-252 | On the 24-hour clock the list holds each hour of the circular interval once, in clock order. |
| `Cron.CronStringToCyclePeriodicRespAttr` | src/cisco.com/son/apphcd/app/grpc/appmanager/common/common.go:291-368 | The parser with its returned errors and its indexing past the end. |
| `Cron.RoundTrip` | src/cisco.com/son/apphcd/app/grpc/appmanager/common/common.go:227-368 | Parsing a printed line gives back interval, hours and weekdays in Sunday-to-Saturday order when some weekday is on; with none the parser indexes past the end. |
| `Cron.DaysByName` | src/cisco.com/son/apphcd/app/grpc/appmanager/common/common.go:255-365 | The line numbers the days that are on from Sunday, 0, to Saturday, 6, and reading it back names exactly these days. |
| `DeleteApps.RunKeepsInv` | src/cisco.com/son/apphcd/app/grpc/appmanager/adapters/rancher/handle_appsdata.go:88-146 | What every interleaving of the deletion workers keeps: the list holds the listed workers, a passed worker's application is gone unless its lookup failed, the directory is removed only with a full list. |
| `DeleteApps.Barrier` | src/cisco.com/son/apphcd/app/grpc/appmanager/adapters/rancher/handle_appsdata.go:125-128 | Once the root directory has been removed every selected instance is listed, and gone from the cluster unless its lookup failed. |
| `DeleteApps.RemovedExactly` | src/cisco.com/son/apphcd/app/grpc/appmanager/adapters/rancher/handle_appsdata.go:125-128 | When all deletions succeed the directory is removed if and only if charts are purged, and once if append and check are one step. |
| `DeleteApps.NoErrorMeansGone` | src/cisco.com/son/apphcd/app/grpc/appmanager/adapters/rancher/handle_appsdata.go:139-145 | A nil error means one entry per selected instance, and that each is gone unless its lookup failed. |
| `DeleteErrors.ErrorsExactly` | src/cisco.com/son/apphcd/app/grpc/appmanager/adapters/rancher/handle_appsdata.go:105-137 | For distinct names, after every complete interleaving the errors are exactly the failures that the deletions have on their own and, for those that succeed, the failing chart deletions of a purge. |
| `DeleteErrors.NoErrorExactly` | src/cisco.com/son/apphcd/app/grpc/appmanager/adapters/rancher/handle_appsdata.go:139-145 | No error is returned exactly when every deletion succeeds on its own and no chart deletion of a purge fails. |
| `DeleteApps.ReportedButRunning` | src/cisco.com/son/apphcd/app/grpc/appmanager/adapters/rancher/apiclient/appinstance.go:303-307 | A deletion that reports success leaves the application running exactly when looking it up failed. |
| `Locks.LockTable.IsLocked` | src/cisco.com/son/apphcd/app/common/mutex/mutex.go:42-51 | True exactly when the key or one of "EnableDisableApps", "DeleteApps", "UpgradeCluster", "AddNode" and "RemoveNode" is in the table. |
| `Locks.LockTable.Lock` | src/cisco.com/son/apphcd/app/common/mutex/mutex.go:32-34 | Adds the key. |
| `Locks.LockTable.Unlock` | src/cisco.com/son/apphcd/app/common/mutex/mutex.go:36-40 | Removes the key, if it is there, and no other. |
| `Locks.SafeExactly` | src/cisco.com/son/apphcd/app/grpc/appmanager/appmanager.go:36-234 | With check and lock as one step, every run has one holder per key (node-state updates excepted), one operation of the global kinds, and frees nobody else's key, exactly when no application has the key "UpdateNodeState" beside such an update. |
| `Locks.AdmittedExactly` | src/cisco.com/son/apphcd/app/common/mutex/mutex.go:42-51 | An operation is let in exactly when no global operation holds its key and nobody holds the key it looks up. |
| `Locks.AdmittedByKind` | src/cisco.com/son/apphcd/app/grpc/appmanager/appmanager.go:35-234 | By kind: an application request is let in exactly when no holder is of a global kind, has the same name and root group joined, or is named like a global key; metadata requests by name, node requests by "AnyAction". |
| `Locks.KindLocksEverybody` | src/cisco.com/son/apphcd/app/common/mutex/mutex.go:42-51 | Each of the five global kinds locks every key while its own is in the table. |
| `Locks.GlobalShutsOut` | src/cisco.com/son/apphcd/app/grpc/clustermanager/clustermanager.go:113-159 | While a global operation holds its key no step lets anybody in. |
| `Locks.AbandonedForever` | src/cisco.com/son/apphcd/app/grpc/clustermanager/common/lcm/upgrade_cluster.go:186-188 | After an upgrade whose clean command failed no operation is ever let in again. |
| `Locks.RaceWitness` | src/cisco.com/son/apphcd/app/grpc/appmanager/appmanager.go:35-53 | Looking and locking in two steps lets in any two operations at once; the state is unsafe when they would have to exclude each other. |
| `Locks.TwoStepSafeExactly` | src/cisco.com/son/apphcd/app/grpc/appmanager/appmanager.go:35-53 | Over all runs, two-step locking is safe exactly when no two of the operations would have to exclude each other: it excludes nothing. |
| `InstanceLocks.HoldersHaveOwnInstances` | src/cisco.com/son/apphcd/app/grpc/appmanager/appmanager.go:36-53 | With names without capitals, underscores and dashes, none of them shortened, two requests that hold their locks in an atomic run have no instance in common. |
| `InstanceLocks.ClearNamesDiffer` | src/cisco.com/son/apphcd/app/grpc/appmanager/adapters/rancher/appsdata.go:48-92 | Such names give one instance name exactly when application, root group and group id are the same. |
| `InstanceLocks.SharedInstance` | src/cisco.com/son/apphcd/app/grpc/appmanager/appmanager.go:36-53 | For all names and root groups that fit: application "a-b" and application "a" of root group "b" have different keys and one instance name, and both are let in. |
| `UpgradeCluster.Upgrade.Finalize` | src/cisco.com/son/apphcd/app/grpc/clustermanager/common/lcm/upgrade_cluster.go:177-212 | ERROR exactly when an error is passed or some entry has a text; the lock is released and the report published exactly when there is a session and the clean command succeeds. |
| `UpgradeCluster.Upgrade.UpgradeComponents` | src/cisco.com/son/apphcd/app/grpc/clustermanager/common/lcm/upgrade_cluster.go:79-134 | In whatever order they finish, the entries are a permutation of those of the prepared components other than the controller; each has status ERROR with the text of its failure or OK with none, and no component is missing. |
| `UpgradeCluster.Upgrade.Run` | src/cisco.com/son/apphcd/app/grpc/clustermanager/common/lcm/upgrade_cluster.go:46-171 | On every path finalize is reached once; the status is ERROR exactly when an early step or a component other than the controller failed; every component is told of, the controller always as a success. |
| `UpgradeCluster.ControllerUnnoticed` | src/cisco.com/son/apphcd/app/grpc/clustermanager/common/lcm/upgrade_cluster.go:137-146 | The report does not depend on whether the upgrade of the controller succeeded: the deferred error is evaluated too early. |
| `SharedStorage.SizeRoundTrip` | src/cisco.com/son/apphcd/app/grpc/common/common.go:72-95 | Reading a printed size gives the size back, for every 64-bit integer. |
| `SharedStorage.Store.Create` | src/cisco.com/son/apphcd/app/grpc/appmanager/adapters/rancher/apiclient/appstorage.go:20-106 | CreateSharedStorage with the claim listed at the beginning, whose capacity reads empty while it is not bound, for every set of failing calls. |
| `SharedStorage.Store.Delete` | src/cisco.com/son/apphcd/app/grpc/appmanager/adapters/rancher/apiclient/appstorage.go:109-125 | DeleteStorage, with lists whose failures read as empty. |
| `SharedStorage.AlwaysConsistent` | src/cisco.com/son/apphcd/app/grpc/appmanager/adapters/rancher/apiclient/appstorage.go:20-125 | After any sequence of creations, deletions and late bindings with any failures, a claim exists only with a volume of the same size. |
| `SharedStorage.CreationConverges` | src/cisco.com/son/apphcd/app/grpc/appmanager/adapters/rancher/apiclient/appstorage.go:20-106 | After any such sequence, a successful creation leaves both objects at the requested size. |
| `SharedStorage.SecondCreationIsSilent` | src/cisco.com/son/apphcd/app/grpc/appmanager/adapters/rancher/apiclient/appstorage.go:38-53 | A second creation of the same size performs no writes. |
| `SharedStorage.ConvergesExactly` | src/cisco.com/son/apphcd/app/grpc/appmanager/adapters/rancher/apiclient/appstorage.go:38-106 | From any two sizes and a bound or unbound claim: the exact conditions for success and, given success, for convergence. An unbound claim makes a change of size fail. |
| `SharedStorage.DeletionRemoves` | src/cisco.com/son/apphcd/app/grpc/appmanager/adapters/rancher/apiclient/appstorage.go:109-125 | A successful deletion removes claim and volume unless their lists failed. |
| `SharedStorage.CreationSucceedsExactly` | src/cisco.com/son/apphcd/app/grpc/appmanager/adapters/rancher/apiclient/appstorage.go:20-106 | From every state that requests lead to: a creation succeeds exactly for these failing calls. |
| `SharedStorage.DeletionSucceedsExactly` | src/cisco.com/son/apphcd/app/grpc/appmanager/adapters/rancher/apiclient/appstorage.go:109-125 | The same for a deletion, from any state. |
| `SharedStorage.SizeUnits` | src/cisco.com/son/apphcd/app/grpc/common/common.go:72-95 | Kilobytes are rounded towards zero, plain numbers are gigabytes, and an empty size is an error. |
| `Naming.KubeNameIsPlain` | src/cisco.com/son/apphcd/app/grpc/appmanager/adapters/rancher/appsdata.go:88-93 | Normalized names have no capital letters and no underscores, and normalizing twice changes nothing. |
| `Naming.KubeNameExactly` | src/cisco.com/son/apphcd/app/grpc/appmanager/adapters/rancher/appsdata.go:88-93 | Underscores become dashes, capital letters small ones, and nothing else changes. |
| `Naming.NameFits` | src/cisco.com/son/apphcd/app/grpc/appmanager/adapters/rancher/appsdata.go:48-92 | At most 63 characters (section 2.3.4 of RFC 1035) for every name and root group when the group id has at most 40. |
| `Naming.NameKeeps` | src/cisco.com/son/apphcd/app/grpc/appmanager/adapters/rancher/appsdata.go:48-92 | A name longer than 15 keeps its first 14 characters, a root group longer than 20 its first 19, and a group id longer than 15 loses its first 14; the parts follow in this order, normalized and joined by dashes. |
| `Naming.FitsExactly` | src/cisco.com/son/apphcd/app/grpc/appmanager/adapters/rancher/appsdata.go:48-92 | For a name and root group of full length the limit is met exactly up to 40. |
| `Naming.ChartFoundExactly` | src/cisco.com/son/apphcd/app/grpc/appmanager/adapters/rancher/adapter.go:475-483 | The chart deleted with the metadata is the instance's chart exactly when nothing was shortened. |
| `Naming.CollideExactly` | src/cisco.com/son/apphcd/app/grpc/appmanager/adapters/rancher/appsdata.go:55-92 | Two group ids get one instance name exactly when what is kept of them differs in capitals and underscores at most. |
| `Naming.SharedVolumeFoundExactly` | src/cisco.com/son/apphcd/app/grpc/appmanager/adapters/rancher/adapter.go:317-317 | The deletion finds the shared volume of an update exactly when the application name is its own normal form. |
| `Selection.AppsData.AppendRunning` | src/cisco.com/son/apphcd/app/grpc/appmanager/adapters/rancher/appsdata.go:143-255 | Fails exactly when the listing fails or a matching item cannot be read; otherwise the stored lists and the sample are the specified ones. |
| `Selection.RecordsRefineFilter` | src/cisco.com/son/apphcd/app/grpc/appmanager/adapters/rancher/appsdata.go:158-250 | The stored list is, in order, the records of the items at the places that pass all predicates. |
| `Selection.PlacesExact` | src/cisco.com/son/apphcd/app/grpc/appmanager/adapters/rancher/appsdata.go:158-214 | Those places are increasing and are exactly the places of the items that pass name, cycle, root group and group id. |
| `Selection.RecordsAreAskedFor` | src/cisco.com/son/apphcd/app/grpc/appmanager/adapters/rancher/appsdata.go:158-222 | Every stored instance is of its application and has the name, cycle, root group and one of the group ids of the request, as far as it gives any. |
| `Selection.AskedForIsRecorded` | src/cisco.com/son/apphcd/app/grpc/appmanager/adapters/rancher/appsdata.go:158-250 | Every listed instance that has them is stored, with name, annotations, labels, version, size and state as listed. |
| `Selection.SampleIsAskedFor` | src/cisco.com/son/apphcd/app/grpc/appmanager/adapters/rancher/appsdata.go:158-198 | The sample has the name, cycle and root group of the request, and there is one as soon as a listed instance has them (`AskedForIsSampled`). |
| `Selection.RecordAction` | src/cisco.com/son/apphcd/app/grpc/appmanager/adapters/rancher/appsdata.go:234-245 | A stored instance is re-created exactly when its requested version is its current one. |
| `Selection.SampleIsFirst` | src/cisco.com/son/apphcd/app/grpc/appmanager/adapters/rancher/appsdata.go:189-198 | The sample is the first item that passes everything but the list of group ids. |
| `Selection.AppsData.AppendNew` | src/cisco.com/son/apphcd/app/grpc/appmanager/adapters/rancher/appsdata.go:33-139 | One record per group id, in order, with its name, annotations, unknown size and the action Create. |
| `Selection.NewRecordIs` | src/cisco.com/son/apphcd/app/grpc/appmanager/adapters/rancher/appsdata.go:33-139 | Name, namespace, versions, size, annotations, labels and default description of the record of a requested instance. |
| `Selection.AppsData.AppendToDelete` | src/cisco.com/son/apphcd/app/grpc/appmanager/adapters/rancher/appsdata.go:258-328 | The deletion records of all items that pass the filters, which include the version annotation; fails exactly when the listing fails. |
| `Selection.DeletionExact` | src/cisco.com/son/apphcd/app/grpc/appmanager/adapters/rancher/appsdata.go:270-324 | Exactly the matching instances are selected, and a requested version is the one each of them runs. |
| `Selection.DeletedIsAskedFor` | src/cisco.com/son/apphcd/app/grpc/appmanager/adapters/rancher/appsdata.go:270-324 | What is selected for deletion has the name, version, root group and one of the group ids of the request, as far as it gives any. |
| `Selection.AskedForIsDeleted` | src/cisco.com/son/apphcd/app/grpc/appmanager/adapters/rancher/appsdata.go:270-324 | And every listed instance that has them is selected. |
| `CreateApp.Classify` | src/cisco.com/son/apphcd/app/grpc/appmanager/adapters/rancher/adapter.go:146-168 | A requested instance that runs is left alone; the catalog is asked once per other running instance, a failed lookup ends the call, and template availability is what the last running instance left it as. |
| `CreateApp.InstanceIsFound` | src/cisco.com/son/apphcd/app/grpc/appmanager/adapters/rancher/appsdata.go:158-222 | The annotations left by a first call pass every filter of the same request, and state and size can be read back. |
| `CreateApp.SecondCallFinds` | src/cisco.com/son/apphcd/app/grpc/appmanager/adapters/rancher/adapter.go:101-168 | After a successful first call the second one can read every listing of the cluster and finds every requested instance. |
| `CreateApp.SecondCallIsUnchanged` | src/cisco.com/son/apphcd/app/grpc/appmanager/adapters/rancher/adapter.go:101-231 | The second call plans nothing, leaves the cluster as it is and has nothing done to report, which is answered as unchanged. |
| `CreateApp.FromCatalogIsUnreadable` | src/cisco.com/son/apphcd/app/grpc/appmanager/adapters/rancher/adapter.go:181-204 | With charts from the catalog no size is recorded, and the second call cannot read the listing. |
| `CatalogWait.Round` | src/cisco.com/son/apphcd/app/grpc/appmanager/adapters/rancher/adapter.go:891-911 | After a round the pending map is exactly what that round missed, whatever it held before. |
| `CatalogWait.WaitForCatalogEntry` | src/cisco.com/son/apphcd/app/grpc/appmanager/adapters/rancher/adapter.go:884-930 | Succeeds exactly when one of twenty rounds sees every name before a lookup fails, and fails exactly when a lookup fails first; on success the instances are flagged. |
| `CatalogWait.DistinctSeeAll` | src/cisco.com/son/apphcd/app/grpc/appmanager/adapters/rancher/adapter.go:884-930 | For distinct names, seeing every name is every instance being available. |
| `CatalogWait.DuplicateNameWitness` | src/cisco.com/son/apphcd/app/grpc/appmanager/adapters/rancher/adapter.go:905-910 | With a name twice, the wait ends while an instance is missing. |
| `Accounting.CountInstances` | src/cisco.com/son/apphcd/app/grpc/clustermanager/adapters/rancher/adapter.go:122-141 | The counting loops with 32-bit counters. |
| `Accounting.TallyCounts` | src/cisco.com/son/apphcd/app/grpc/clustermanager/adapters/rancher/adapter.go:129-141 | Below 2^32 instances the counters are the multiplicities of the names, the sum of the counters is the total, and the keys are the names that occur. |
| `Accounting.ActiveWithinCreated` | src/cisco.com/son/apphcd/app/grpc/clustermanager/adapters/rancher/adapter.go:134-157 | Active counts never exceed created ones, and an application is active exactly when some instance has state "1". |
| `Accounting.AdmittedExactly` | src/cisco.com/son/apphcd/app/grpc/appmanager/adapters/rancher/apiclient/appinstance.go:843-855 | Without wrap-around a request is admitted exactly when it is smaller than the free memory. |
| `Accounting.AdmittedInGeneral` | src/cisco.com/son/apphcd/app/grpc/appmanager/adapters/rancher/apiclient/appinstance.go:843-855 | The exact condition with wrap-around of the product and of the difference. |
| `Accounting.AdmittedUnread` | src/cisco.com/son/apphcd/app/grpc/appmanager/adapters/rancher/apiclient/appinstance.go:843-855 | Amounts that cannot be read let every request pass, and an allocatable amount in another unit counts as none. |

## Left out

- Executor.Confluence: takes appending to the shared lists as atomic; the goroutines append without a lock.
- Locks.SafeExactly: takes looking and locking as one step; `Locks.TwoStepSafeExactly` shows why.
- ChartLoop.SetAll: the loop is a recursion over the records that are left; that the records of different instances
  share no map is a requirement, not part of the model of how they are made.
- History.AlwaysRecorded: failed calls and deletions are not among the calls; charts taken from the catalog and
  planned records with another instance's size are excluded by its condition on the records.
- Planner.CompareRequested: reads the running instances as values taken before the loops; that the loops do not
  change them is in its frame and not stated again.
- Cluster.Client.CreateAppInstance: the list made inside the clean-up of a released volume does not fail on its own.
- UpgradeCluster.Upgrade.UpgradeComponents: an order in which the goroutines finish stands for their interleaving,
  since appending is all they share.
- States other than 0 and 1 in a state annotation, which `%d` would print again.
- Absent maps read as empty maps, and absent messages of a request as their zero values.
- The YAML text of a chart and its parser; the values read back are a record, with image name and ports present.
- Unicode case folding; names are treated as ASCII.
- Rewriting of capacities by Kubernetes, such as 1024Gi as 1Ti.
- CPU amounts, limit ranges and resource quotas, which depend on floating point and library formatting.
- `GetApps`, `EnableDisableApp`, node management, monitoring addresses, SSH, Git and registry checks: calls into other
  systems with little logic of their own.
- Whether a namespace is empty when it is removed: only the selected instances are known to be gone.
