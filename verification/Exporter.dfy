/**
 The export routine itself, updating the journal, the spool and the folders in
 place. Between any two effects other programs may write files, an operation may
 fail, or the process may die; the routine is shown to perform only runs of the
 publication machine.
 */
module Exporter {
  import opened Words
  import opened Publication
  import opened PublicationSafety
  import Theorems = PublicationTheorems
  import Progress = PublicationProgress

  datatype Event =
    | Begins(id: Id, folder: Option<string>, stem: string)
    | Ends(id: Id, outcome: Outcome)
    | Retries(id: Id, image: Input, scratch: string)

  /** No PDF without the report that describes it. */
  ghost predicate ReportsPrecede(disk: Disk) {
    forall id :: id in disk.records && SpoolOf(disk, id).pdf.Some? ==> SpoolInv(id, SpoolOf(disk, id))
  }

  lemma ReportFirst(w: World)
    requires Inv(w)
    ensures ReportsPrecede(w.disk)
  {
  }

  class Computer {
    /** Nothing disturbs an export: no other program writes, nothing fails, the process lives. */
    const calm: bool
    var records: map<Id, Fax>
    var spools: map<Id, Spool>
    var files: map<Path, Content>
    ghost const origin: World
    ghost var world: World
    ghost var trace: seq<Action>

    ghost predicate Valid()
      reads this
    {
      Fresh(origin) && Runs(origin, trace, world) && world.disk == Disk(records, spools, files)
    }

    /** Whatever was done so far, the invariant of publication holds. */
    lemma IsConsistent()
      requires Valid()
      ensures Inv(world)
    {
      FreshInv(origin);
      RunKeepsInv(origin, trace, world);
    }

    ghost predicate Doing(id: Id, fax: Fax, pc: Pc)
      reads this
    {
      Valid() && world.process == Exporting(id, fax, pc) && id in records
    }

    constructor (files: map<Path, Content>, calm: bool)
      requires forall p :: p in files ==> !Ours(files[p])
      ensures Valid() && Fresh(origin) && world == origin && this.files == files && this.calm == calm
    {
      records, spools := map[], map[];
      this.files, this.calm := files, calm;
      origin := World(Disk(map[], map[], files), Idle, {}, {});
      world := World(Disk(map[], map[], files), Idle, {}, {});
      trace := [];
    }

    /** A reception begins: its record is there before anything is received. */
    method Begin(id: Id, folder: Option<string>, stem: string)
      requires Valid() && id !in records && ValidStem(stem)
      modifies this
      ensures Valid() && world == Step(old(world), Arrive(id, folder, stem))
    {
      records := records[id := Fax(Receiving, 0, folder, stem, Pending)];
      spools := spools[id := Spool(None, None)];
      Advance(Arrive(id, folder, stem));
    }

    /** A reception ends, before anything of it is exported. */
    method End(id: Id, outcome: Outcome)
      requires Valid() && Enabled(world, Finish(id, outcome))
      modifies this
      ensures Valid() && world == Step(old(world), Finish(id, outcome))
    {
      records := records[id := records[id].(outcome := outcome)];
      Advance(Finish(id, outcome));
    }

    ghost method Advance(a: Action)
      requires Runs(origin, trace, world) && Enabled(world, a)
      modifies this`world, this`trace
      ensures Runs(origin, trace, world) && world == Step(old(world), a)
    {
      Theorems.RunsOne(world, a);
      Theorems.RunsAppend(origin, trace, world, [a], Step(world, a));
      trace := trace + [a];
      world := Step(world, a);
    }

    /** Other programs may do anything to files that are not ours. */
    method Interference()
      requires Valid()
      modifies this`files, this`world, this`trace
      ensures Valid() && world.process == old(world.process) && world.disk.records == old(world.disk.records)
      ensures world.disk.spools == old(world.disk.spools)
      ensures calm ==> world == old(world)
    {
    }

    /** The temporary file an error at this point would leave to be deleted. */
    ghost function Scratch(): Option<Path>
      requires world.process.Exporting?
      reads this
    {
      match world.process.pc
      case Copy(temp) => Some(temp)
      case Stage(temp) => Some(temp)
      case _ => None
    }

    /** Between two effects: carry on, or die, or fail and record the failure. */
    method Survives(id: Id, fax: Fax, temp: Option<Path>) returns (ok: bool)
      requires world.process.Exporting? && Doing(id, fax, world.process.pc) && temp == Scratch()
      requires !(world.process.pc.Check? && Finished(fax)) && !world.process.pc.Cleanup?
      modifies this
      ensures Valid()
      ensures ok ==> Doing(id, fax, old(world.process.pc)) && spools == old(spools) && records == old(records)
      ensures !ok ==> world.process.Idle?
      ensures calm ==> ok && world == old(world)
    {
      Interference();
      ok := *;
      if ok || calm {
        return true;
      }
      var died := *;
      if died {
        Advance(Death);
      } else {
        HandleError(id, fax, temp);
      }
    }

    /** The actor's reaction to an export error. Its own save may fail too. */
    method HandleError(id: Id, fax: Fax, temp: Option<Path>)
      requires world.process.Exporting? && Doing(id, fax, world.process.pc) && temp == Scratch()
      requires !(world.process.pc.Check? && Finished(fax)) && !world.process.pc.Cleanup?
      modifies this
      ensures Valid() && world.process.Idle?
      ensures calm ==> world == Faulted(old(world), true)
    {
      var saved := *;
      saved := saved || calm;
      if temp.Some? {
        files := files - {temp.value};
      }
      if saved {
        var failed := if fax.status.Publishing? then fax.(status := fax.status.(error := true)) else fax.(status := Failed);
        records := records[id := failed];
      }
      Advance(Fault(saved));
    }

    method Journal(id: Id, fax: Fax)
      requires world.process.Exporting? && Doing(id, fax, world.process.pc)
      requires world.process.pc.SaveRecovered? || world.process.pc.SaveNoContent?
            || world.process.pc.SaveAnnounced? || world.process.pc.SavePublished?
      modifies this
      ensures Valid() && world == Proceeded(old(world), Go) && records == old(records)[id := fax]
    {
      records := records[id := fax];
      Advance(Proceed(Go));
    }

    /** The staging file goes once the publication is recorded; failing to delete it is ignored. */
    method Tidy(id: Id, fax: Fax)
      requires Doing(id, fax, Cleanup)
      modifies this
      ensures Valid() && world.process.Idle? && records == old(records)
      ensures calm ==> world == Proceeded(old(world), Go)
    {
      Interference();
      var deleted := *;
      if deleted || calm {
        files := files - {Staging(id, fax)};
        Advance(Proceed(Go));
      } else {
        Advance(Fault(false));
      }
    }

    /** Settle on a file that an earlier run linked without recording it. */
    method Recover(id: Id, fax0: Fax, path: Path) returns (done: bool)
      requires Doing(id, fax0, SyncRecovered(path))
      modifies this
      ensures Valid() && world.process.Idle?
      ensures done ==> id in records && records[id].status == Published(path)
      ensures calm ==> done && world == Progress.Recorded(old(world), path)
    {
      done := Survives(id, fax0, None);
      if !done {
        return;
      }
      Advance(Proceed(Go));
      done := SettleRecord(id, fax0.(status := Published(path)), path);
    }

    /** The publication is recorded, and then its staging copy goes. */
    method SettleRecord(id: Id, fax: Fax, path: Path) returns (done: bool)
      requires Doing(id, fax, SaveRecovered) || Doing(id, fax, SavePublished)
      requires fax.status == Published(path)
      modifies this
      ensures Valid() && world.process.Idle?
      ensures done ==> id in records && records[id].status == Published(path)
      ensures calm ==> done && world == Progress.Recorded(old(world), path)
    {
      done := Survives(id, fax, None);
      if done {
        Journal(id, fax);
        Tidy(id, fax);
      }
    }

    /** The report is written before the PDF it describes: wherever this ends, there is no
        PDF without the report of its pages and outcome. */
    method RenderSpool(id: Id, fax0: Fax, image: Input) returns (ready: bool, fax: Fax, done: bool)
      requires Doing(id, fax0, Pc.Render)
      modifies this
      ensures Valid()
      ensures ready ==> Doing(id, fax, Prepare) && Matches(fax, SpoolOf(world.disk, id))
      ensures !ready ==> world.process.Idle?
      ensures ReportsPrecede(world.disk)
      ensures done ==> !ready && id in records && records[id].status.NoContent?
      ensures calm ==> (ready <==> Progress.Usable(image)) && (done <==> image.Nothing?)
      ensures calm && ready ==> world == Progress.WithPdf(old(world), image) && fax == world.process.fax
      ensures calm && done ==> world == Save(old(world), id, fax0.(status := NoContent)).(process := Idle)
      ensures calm && !ready && !done ==> world == Faulted(At(old(world), fax0, Failing), true)
    {
      ready, fax, done := Render(id, fax0, image);
      IsConsistent();
      ReportFirst(world);
    }

    method Render(id: Id, fax0: Fax, image: Input) returns (ready: bool, fax: Fax, done: bool)
      requires Doing(id, fax0, Pc.Render)
      modifies this
      ensures Valid()
      ensures ready ==> Doing(id, fax, Prepare)
      ensures !ready ==> world.process.Idle?
      ensures done ==> !ready && id in records && records[id].status.NoContent?
      ensures calm ==> (ready <==> Progress.Usable(image)) && (done <==> image.Nothing?)
      ensures calm && ready ==> world == Progress.WithPdf(old(world), image) && fax == world.process.fax
      ensures calm && done ==> world == Save(old(world), id, fax0.(status := NoContent)).(process := Idle)
      ensures calm && !ready && !done ==> world == Faulted(At(old(world), fax0, Failing), true)
    {
      done := false;
      fax := fax0;
      ready := Survives(id, fax, None);
      if !ready {
        return;
      }
      Advance(Proceed(image));
      if image.Nothing? {
        fax := fax.(status := NoContent);
        ready := Survives(id, fax, None);
        if ready {
          Journal(id, fax);
          ready, done := false, true;
        }
        return;
      }
      if !image.Rendered? || image.outcome.Receiving? {
        HandleError(id, fax, None);
        ready := false;
        return;
      }
      fax := fax.(pages := image.pages, outcome := image.outcome);
      ready := PersistRender(id, fax, Pdf(id, image.pages, image.outcome, image.bytes));
    }

    method PersistRender(id: Id, fax: Fax, content: Content) returns (ready: bool)
      requires Doing(id, fax, PersistReport(content))
      modifies this
      ensures Valid()
      ensures ready ==> Doing(id, fax, Prepare)
      ensures !ready ==> world.process.Idle?
      ensures calm && content.Pdf? && fax.pages == content.pages && fax.outcome == content.outcome ==>
        ready && world == At(Progress.Spooled(old(world), id, content), fax, Prepare)
    {
      ready := Survives(id, fax, None);
      if !ready {
        return;
      }
      var spool := if id in spools then spools[id] else Spool(None, None);
      spools := spools[id := spool.(report := Some(Report(fax.pages, fax.outcome)))];
      Advance(Proceed(Go));
      ready := PersistContent(id, fax, content);
    }

    method PersistContent(id: Id, fax: Fax, content: Content) returns (ready: bool)
      requires Doing(id, fax, PersistPdf(content)) && id in spools
      modifies this
      ensures Valid()
      ensures ready ==> Doing(id, fax, Prepare)
      ensures !ready ==> world.process.Idle?
      ensures calm ==> ready && world == Proceeded(old(world), Go)
    {
      ready := Survives(id, fax, None);
      if ready {
        spools := spools[id := spools[id].(pdf := Some(content))];
        Advance(Proceed(Go));
      }
    }

    /** A complete copy of the PDF appears in the folder under its hidden staging name
        before any visible name is used. */
    method StageCopy(id: Id, fax: Fax, scratch: string) returns (ready: bool)
      requires Doing(id, fax, Prepare) && SpoolOf(world.disk, id).pdf.Some?
      modifies this
      ensures Valid()
      ensures ready ==> Doing(id, fax, Announce(1)) && fax.folder.Some?
      ensures ready ==> SameContent(world.disk, id, Staging(id, fax)) && Staging(id, fax).Hidden()
      ensures !ready ==> world.process.Idle?
      ensures calm ==> ready == Progress.CanStage(old(world), scratch)
      ensures calm && ready ==> world == Progress.WithCopy(old(world))
      ensures calm && !ready ==> world == Faulted(At(old(world), fax, Failing), true)
    {
      ready := MakeCopy(id, fax, scratch);
      IsConsistent();
    }

    method MakeCopy(id: Id, fax: Fax, scratch: string) returns (ready: bool)
      requires Doing(id, fax, Prepare) && SpoolOf(world.disk, id).pdf.Some?
      modifies this
      ensures Valid()
      ensures ready ==> Doing(id, fax, Announce(1)) && fax.folder.Some?
      ensures !ready ==> world.process.Idle?
      ensures calm ==> ready == Progress.CanStage(old(world), scratch)
      ensures calm && ready ==> world == Progress.WithCopy(old(world))
      ensures calm && !ready ==> world == Faulted(At(old(world), fax, Failing), true)
    {
      ready := Survives(id, fax, None);
      if !ready {
        return;
      }
      if fax.folder.None? || !ValidStem(fax.stem) {
        Advance(Proceed(TempName(scratch)));
        HandleError(id, fax, None);
        return false;
      }
      var staging, temp := Staging(id, fax), TempPath(fax, scratch);
      var pdf := if id in spools then spools[id].pdf else None;
      if staging in files {
        Advance(Proceed(TempName(scratch)));
        if pdf != Some(files[staging]) {
          HandleError(id, fax, None);
          ready := false;
        }
        return;
      }
      if temp in files {
        Advance(Proceed(TempName(scratch)));
        HandleError(id, fax, None);
        return false;
      }
      Progress.CopyIsClean(world, temp);
      files := files[temp := Unfinished];
      Advance(Proceed(TempName(scratch)));
      ready := FillAndName(id, fax, temp);
    }

    method FillAndName(id: Id, fax: Fax, temp: Path) returns (ready: bool)
      requires Doing(id, fax, Copy(temp)) && fax.folder.Some?
      modifies this
      ensures Valid()
      ensures ready ==> Doing(id, fax, Announce(1))
      ensures !ready ==> world.process.Idle?
      ensures calm && SpoolOf(old(world).disk, id).pdf.Some? && Staging(id, fax) !in old(files) && temp in old(files) ==>
        ready && world == Progress.WithCopy(Remove(old(world), temp))
    {
      ready := Survives(id, fax, Some(temp));
      if !ready {
        return;
      }
      var pdf := if id in spools then spools[id].pdf else None;
      if pdf.None? {
        Advance(Proceed(Go));
        HandleError(id, fax, None);
        return false;
      }
      if Staging(id, fax) !in files && temp in files {
        Progress.CopyIsFilled(world, temp);
      }
      files := files[temp := pdf.value];
      Advance(Proceed(Go));
      ready := NameCopy(id, fax, temp);
    }

    /** The complete copy gets its staging name, never in place of another file. */
    method NameCopy(id: Id, fax: Fax, temp: Path) returns (ready: bool)
      requires Doing(id, fax, Stage(temp)) && fax.folder.Some?
      modifies this
      ensures Valid()
      ensures ready ==> Doing(id, fax, Announce(1))
      ensures !ready ==> world.process.Idle?
      ensures calm && Staging(id, fax) !in old(files) && temp in old(files) ==>
        ready && world == Proceeded(old(world), Go)
    {
      ready := Survives(id, fax, Some(temp));
      if !ready {
        return;
      }
      var staging := Staging(id, fax);
      if staging in files || temp !in files {
        files := files - {temp};
        Advance(Proceed(Go));
        HandleError(id, fax, None);
        return false;
      }
      files := (files - {temp})[staging := files[temp]];
      Advance(Proceed(Go));
    }

    /** A name is journalled before anything appears under it. */
    method AnnounceName(id: Id, fax0: Fax, suffix: nat) returns (ok: bool, fax: Fax)
      requires Doing(id, fax0, Announce(suffix))
      modifies this
      ensures Valid()
      ensures ok ==> Doing(id, fax, Link(suffix)) && records[id] == fax && fax.status.Publishing?
      ensures !ok ==> world.process.Idle?
      ensures fax.folder == fax0.folder && fax.stem == fax0.stem
      ensures calm ==> ok && fax == Progress.Announced(old(world), suffix)
      ensures calm ==> world == At(Save(old(world), id, fax), fax, Link(suffix))
    {
      fax := fax0;
      ok := Survives(id, fax, None);
      if !ok {
        return;
      }
      fax := fax.(status := Publishing(Target(fax, suffix), Staging(id, fax), false));
      Advance(Proceed(Go));
      ok := JournalName(id, fax, suffix);
    }

    method JournalName(id: Id, fax: Fax, suffix: nat) returns (ok: bool)
      requires Doing(id, fax, SaveAnnounced(suffix))
      modifies this
      ensures Valid()
      ensures ok ==> Doing(id, fax, Link(suffix)) && records[id] == fax
      ensures !ok ==> world.process.Idle?
      ensures calm ==> ok && world == Proceeded(old(world), Go)
    {
      ok := Survives(id, fax, None);
      if ok {
        Journal(id, fax);
      }
    }

    /** The name is never taken from another file. */
    method LinkName(id: Id, fax: Fax, suffix: nat) returns (ok: bool, taken: bool)
      requires Doing(id, fax, Link(suffix))
      modifies this
      ensures Valid()
      ensures ok && taken ==> Doing(id, fax, if suffix < MAX_SUFFIX then Announce(suffix + 1) else Failing)
      ensures ok && !taken ==> Doing(id, fax, Sync(Target(fax, suffix)))
      ensures !ok ==> world.process.Idle?
      ensures calm ==> (taken <==> Target(fax, suffix) in old(files))
      ensures calm && Staging(id, fax) in old(files) ==> ok && world == Linking(old(world), suffix)
    {
      taken := false;
      ok := Survives(id, fax, None);
      if !ok {
        return;
      }
      var destination, staging := Target(fax, suffix), Staging(id, fax);
      taken := destination in files;
      if taken {
        Advance(Proceed(Go));
        return;
      }
      ok := staging in files;
      if ok {
        files := files[destination := files[staging]];
      }
      Advance(Proceed(Go));
      if !ok {
        HandleError(id, fax, None);
      }
    }

    /** The export has ended as `end` says: done, or with its failure recorded. */
    ghost predicate Ends(done: bool, end: World)
      requires Progress.Settled(end)
      reads this
    {
      (done <==> end.process.Idle?) && world == if end.process.Idle? then end else Faulted(end, true)
    }

    lemma NameTried(before: World, suffix: nat)
      requires before.process.Exporting? && 1 <= suffix <= MAX_SUFFIX
      requires Staging(before.process.id, before.process.fax) in before.disk.files
      ensures var target, tried := Target(before.process.fax, suffix), Progress.Tried(before, suffix);
        && (target !in before.disk.files ==>
              tried.process.Exporting? && Progress.Recorded(tried, target) == Progress.Named(before, suffix))
        && (target in before.disk.files && suffix < MAX_SUFFIX ==>
              && tried == Progress.AfterOccupied(before, suffix)
              && Progress.Named(tried, suffix + 1) == Progress.Named(before, suffix))
        && (target in before.disk.files && suffix == MAX_SUFFIX ==> tried == Progress.Named(before, suffix))
    {
      if Target(before.process.fax, suffix) !in before.disk.files {
        Progress.FreeNameIsRecorded(before, suffix);
      } else if suffix < MAX_SUFFIX {
        Progress.OccupiedMovesOn(before, suffix);
      } else {
        Progress.LastNameFails(before);
      }
    }

    method PublishUnderFreeName(id: Id, fax0: Fax) returns (done: bool)
      requires Doing(id, fax0, Announce(1)) && fax0.folder.Some?
      modifies this
      ensures Valid() && world.process.Idle?
      ensures done ==> id in records && records[id].status.Published?
      ensures calm && Staging(id, fax0) in old(files) ==> Ends(done, Progress.Named(old(world), 1))
    {
      var suffix := 1;
      var fax := fax0;
      while suffix <= MAX_SUFFIX
        invariant 1 <= suffix <= MAX_SUFFIX + 1
        invariant Doing(id, fax, if suffix <= MAX_SUFFIX then Announce(suffix) else Failing)
        invariant calm && Staging(id, fax0) in old(files) ==> Staging(id, fax) in files
        invariant calm && Staging(id, fax0) in old(files) ==>
          (if suffix <= MAX_SUFFIX then Progress.Named(world, suffix) else world) == Progress.Named(old(world), 1)
      {
        ghost var before := world;
        var ok, taken;
        ok, fax := AnnounceName(id, fax, suffix);
        if !ok {
          return false;
        }
        ok, taken := LinkName(id, fax, suffix);
        if !ok {
          return false;
        }
        if calm && Staging(id, fax0) in old(files) {
          NameTried(before, suffix);
        }
        if !taken {
          done := RecordPublished(id, fax, Target(fax, suffix));
          return;
        }
        suffix := suffix + 1;
      }
      HandleError(id, fax, None);
      done := false;
    }

    method RecordPublished(id: Id, fax0: Fax, destination: Path) returns (done: bool)
      requires Doing(id, fax0, Sync(destination))
      modifies this
      ensures Valid() && world.process.Idle?
      ensures done ==> id in records && records[id].status == Published(destination)
      ensures calm ==> done && world == Progress.Recorded(old(world), destination)
    {
      done := Survives(id, fax0, None);
      if !done {
        return;
      }
      Advance(Proceed(Go));
      done := SettleRecord(id, fax0.(status := Published(destination)), destination);
    }

    /** The PDF in the spool is copied into the folder and named. */
    method Publish(id: Id, fax: Fax, scratch: string) returns (done: bool)
      requires Doing(id, fax, Prepare) && SpoolOf(world.disk, id).pdf.Some?
      modifies this
      ensures Valid() && world.process.Idle?
      ensures done ==> id in records && records[id].status.Published?
      ensures calm ==> Ends(done, Progress.Placed(old(world), scratch))
    {
      done := StageCopy(id, fax, scratch);
      if done {
        done := PublishUnderFreeName(id, fax);
      }
    }

    method DrawAndPublish(id: Id, fax0: Fax, image: Input, scratch: string) returns (done: bool)
      requires Doing(id, fax0, Pc.Render)
      modifies this
      ensures Valid() && world.process.Idle?
      ensures done ==> id in records && (records[id].status.Published? || records[id].status.NoContent?)
      ensures calm ==> Ends(done, Progress.Drawn(old(world), image, scratch))
    {
      var ready, fax;
      ready, fax, done := RenderSpool(id, fax0, image);
      if ready {
        done := Publish(id, fax, scratch);
      }
    }

    /** A reception with something to publish. */
    method Resume(id: Id, loaded: Fax, image: Input, scratch: string) returns (done: bool)
      requires Doing(id, loaded, Check) && Progress.Exportable(loaded)
      modifies this
      ensures Valid() && world.process.Idle?
      ensures done ==> id in records && (records[id].status.Published? || records[id].status.NoContent?)
      ensures calm ==> Ends(done, Progress.Exported(old(world), image, scratch))
    {
      done := Survives(id, loaded, None);
      if !done {
        return;
      }
      var spool := if id in spools then spools[id] else Spool(None, None);
      var fax := WithReport(loaded, spool);
      ghost var found := Progress.CheckLeadsOn(world, image, scratch);
      Advance(Proceed(Go));
      if fax.status.Publishing? && spool.pdf.Some? && fax.status.destination in files
         && files[fax.status.destination] == spool.pdf.value {
        done := Recover(id, fax, fax.status.destination);
      } else if spool.pdf.None? {
        done := DrawAndPublish(id, fax, image, scratch);
      } else {
        done := Publish(id, fax, scratch);
      }
    }

    /** One export: done, or to be tried again. */
    method Export(id: Id, image: Input, scratch: string) returns (done: bool)
      requires Valid() && world.process.Idle? && id in records
      modifies this
      ensures Valid() && world.process.Idle?
      ensures done ==> id in records && (records[id].status.Published? || records[id].status.NoContent?)
      ensures calm ==> Ends(done, Progress.Exported(Step(old(world), Start(id)), image, scratch))
    {
      Advance(Start(id));
      var fax := records[id];
      if fax.outcome.Receiving? {
        Advance(Proceed(Go));
        HandleError(id, fax, None);
        done := false;
      } else if fax.status.Published? || fax.status.NoContent? {
        Advance(Proceed(Go));
        done := true;
      } else {
        done := Resume(id, fax, image, scratch);
      }
    }

    /** One thing after another: receptions begin and end, and any of them is exported,
        with whatever image its pages come to. */
    method Handle(event: Event)
      requires Valid() && world.process.Idle?
      modifies this
      ensures Valid() && world.process.Idle?
    {
      match event {
        case Begins(id, folder, stem) =>
          if id !in records && stem != "" && stem[0] != '.' {
            Begin(id, folder, stem);
          }
        case Ends(id, outcome) =>
          if id in records && records[id].outcome.Receiving? && !outcome.Receiving? {
            End(id, outcome);
          }
        case Retries(id, image, scratch) =>
          if id in records {
            var done := Export(id, image, scratch);
          }
      }
    }

    /** Any number of process lifetimes, receptions and retries, in any order. */
    method RetryAll(events: seq<Event>)
      requires Valid() && world.process.Idle?
      modifies this
      ensures Valid() && world.process.Idle?
      ensures forall id, p, q :: (id, p) in world.linked && (id, q) in world.linked && id !in world.stumbled ==> p == q
      ensures forall id :: id in records && records[id].status.Published? ==>
        records[id].status.path in files && id in spools && spools[id].pdf == Some(files[records[id].status.path])
    {
      for i := 0 to |events|
        invariant Valid() && world.process.Idle?
      {
        Interference();
        Handle(events[i]);
      }
      IsConsistent();
      forall id, p, q | (id, p) in world.linked && (id, q) in world.linked && id !in world.stumbled
        ensures p == q
      {
        Theorems.AtMostOneDestination(origin, trace, world, id, p, q);
      }
      forall id | id in records && records[id].status.Published?
        ensures records[id].status.path in files && id in spools && spools[id].pdf == Some(files[records[id].status.path])
      {
        Theorems.PublishedIsTruthful(origin, trace, world, id, records[id].status.path);
      }
    }
  }
}
