/** Crash safety of publication, for every run from a fresh installation. */
module PublicationSafety {
  import opened Words
  import opened Publication

  /** Nothing has been linked for this reception yet, as far as the journal knows. */
  ghost predicate Unlinked(w: World, id: Id) {
    id in w.stumbled || forall p :: (id, p) !in w.linked
  }

  ghost predicate OnlyLink(w: World, id: Id, path: Path) {
    id in w.stumbled || forall p :: (id, p) in w.linked ==> p == path
  }

  ghost predicate Matches(fax: Fax, spool: Spool) {
    spool.pdf.Some? && spool.report.Some? && fax.pages == spool.report.value.pages && fax.outcome == spool.report.value.outcome
  }

  ghost predicate SpoolInv(id: Id, spool: Spool) {
    spool.pdf.Some? ==>
      && spool.report.Some?
      && spool.pdf.value.Pdf? && spool.pdf.value.id == id
      && spool.pdf.value.pages == spool.report.value.pages && spool.pdf.value.outcome == spool.report.value.outcome
      && !spool.pdf.value.outcome.Receiving?
  }

  /** Every PDF in a folder is a copy of an internal one, and a visible one was linked. */
  ghost predicate FilesInv(w: World) {
    && (forall p :: p in w.disk.files && w.disk.files[p].Pdf? ==>
          SpoolOf(w.disk, w.disk.files[p].id).pdf == Some(w.disk.files[p])
          && (!p.Hidden() ==> (w.disk.files[p].id, p) in w.linked))
    && (forall p :: p in w.disk.files && w.disk.files[p].Unfinished? ==> p.Hidden())
  }

  ghost predicate LinksInv(w: World) {
    forall id, p :: (id, p) in w.linked ==> id in w.disk.records && !p.Hidden() && SameContent(w.disk, id, p)
  }

  ghost predicate StatusInv(w: World, id: Id, fax: Fax) {
    match fax.status
    case Publishing(destination, staging, _) =>
      && staging == Staging(id, fax) && SameContent(w.disk, id, staging) && !destination.Hidden()
      && Matches(fax, SpoolOf(w.disk, id)) && OnlyLink(w, id, destination)
    case Published(path) =>
      (id, path) in w.linked && Matches(fax, SpoolOf(w.disk, id)) && OnlyLink(w, id, path)
    case _ => Unlinked(w, id)
  }

  ghost predicate RecordsInv(w: World) {
    && (forall id :: id in w.disk.records ==>
          && ValidStem(w.disk.records[id].stem)
          && StatusInv(w, id, w.disk.records[id])
          && SpoolInv(id, SpoolOf(w.disk, id))
          && (w.disk.records[id].outcome.Receiving? ==> SpoolOf(w.disk, id).pdf == None))
    && (forall id :: id !in w.disk.records ==> SpoolOf(w.disk, id) == Spool(None, None))
  }

  /** The working copy's status is still the journal's, and not a finished one. */
  ghost predicate Unsettled(fax: Fax, stored: Fax) {
    fax.status == stored.status && !fax.status.Published?
  }

  /** What holds at each point of a running export. */
  ghost predicate PcInv(w: World, id: Id, fax: Fax, pc: Pc) {
    id in w.disk.records &&
    var stored := w.disk.records[id];
    var spool := SpoolOf(w.disk, id);
    match pc
    case Check => fax == stored
    case SyncRecovered(path) =>
      fax.status.Publishing? && fax.status.destination == path && stored.status == fax.status
      && (id, path) in w.linked && Matches(fax, spool)
    case SaveRecovered =>
      fax.status.Published? && stored.status.Publishing? && stored.status.destination == fax.status.path
      && (id, fax.status.path) in w.linked && Matches(fax, spool) && SameContent(w.disk, id, Staging(id, fax))
    case Render => Unsettled(fax, stored) && spool.pdf == None && Unlinked(w, id) && !fax.status.Publishing?
    case SaveNoContent => fax.status.NoContent? && spool.pdf == None && Unlinked(w, id)
    case PersistReport(content) =>
      Unsettled(fax, stored) && spool.pdf == None && Unlinked(w, id) && !fax.status.Publishing?
      && content.Pdf? && content.id == id && content.pages == fax.pages && content.outcome == fax.outcome
    case PersistPdf(content) =>
      Unsettled(fax, stored) && spool.pdf == None && Unlinked(w, id) && !fax.status.Publishing?
      && content.Pdf? && content.id == id && content.pages == fax.pages && content.outcome == fax.outcome
      && spool.report == Some(Report(fax.pages, fax.outcome))
    case Prepare => Unsettled(fax, stored) && Matches(fax, spool) && Unlinked(w, id)
    case Copy(temp) =>
      Unsettled(fax, stored) && Matches(fax, spool) && Unlinked(w, id)
      && temp in w.disk.files && w.disk.files[temp].Unfinished? && IsTemp(temp) && fax.folder.Some?
    case Stage(temp) =>
      Unsettled(fax, stored) && Matches(fax, spool) && Unlinked(w, id)
      && IsTemp(temp) && SameContent(w.disk, id, temp) && fax.folder.Some?
    case Announce(suffix) =>
      Matches(fax, spool) && Unlinked(w, id) && SameContent(w.disk, id, Staging(id, fax)) && fax.folder.Some?
      && (fax.status.Publishing? ==> fax.status.staging == Staging(id, fax) && !fax.status.destination.Hidden())
      && !fax.status.Published?
    case SaveAnnounced(suffix) =>
      Matches(fax, spool) && Unlinked(w, id) && SameContent(w.disk, id, Staging(id, fax)) && fax.folder.Some?
      && fax.status == Publishing(Target(fax, suffix), Staging(id, fax), false)
    case Link(suffix) =>
      Matches(fax, spool) && Unlinked(w, id) && SameContent(w.disk, id, Staging(id, fax)) && fax.folder.Some?
      && fax.status == Publishing(Target(fax, suffix), Staging(id, fax), false) && stored == fax
    case Sync(path) =>
      fax.status.Publishing? && fax.status.destination == path && stored == fax
      && (id, path) in w.linked && Matches(fax, spool)
    case SavePublished =>
      fax.status.Published? && stored.status.Publishing? && stored.status.destination == fax.status.path
      && (id, fax.status.path) in w.linked && Matches(fax, spool) && SameContent(w.disk, id, Staging(id, fax))
    case Cleanup => stored.status.Published? && SameContent(w.disk, id, Staging(id, fax)) && stored == fax
    case Failing => StatusInv(w, id, Handled(fax)) && (fax.outcome.Receiving? ==> spool.pdf == None)
  }

  ghost predicate ProcessInv(w: World) {
    w.process.Exporting? ==>
      var Exporting(id, fax, pc) := w.process;
      && id in w.disk.records
      && fax.folder == w.disk.records[id].folder && fax.stem == w.disk.records[id].stem
      && (!pc.Check? && !pc.Failing? ==> !fax.outcome.Receiving? && !w.disk.records[id].outcome.Receiving?)
      && PcInv(w, id, fax, pc)
  }

  ghost predicate Inv(w: World) {
    FilesInv(w) && LinksInv(w) && RecordsInv(w) && ProcessInv(w)
  }

  lemma FreshInv(w: World)
    requires Fresh(w)
    ensures Inv(w)
  {
  }

  ghost predicate DiskInv(w: World) {
    FilesInv(w) && LinksInv(w) && RecordsInv(w)
  }

  // ------------------------------------------------- effects on the disk

  /** Two worlds the durable invariants cannot tell apart. */
  ghost predicate SameDisk(w: World, v: World) {
    w.disk == v.disk && w.linked == v.linked && w.stumbled == v.stumbled
  }

  lemma SameDiskKeeps(w: World, v: World)
    requires DiskInv(w) && SameDisk(w, v)
    ensures DiskInv(v)
  {
    forall id | id in v.disk.records
      ensures StatusInv(v, id, v.disk.records[id])
    {
      assert StatusInv(w, id, v.disk.records[id]);
    }
  }

  lemma SaveKeepsDisk(w: World, id: Id, fax: Fax)
    requires DiskInv(w) && id in w.disk.records && fax.stem == w.disk.records[id].stem
    requires StatusInv(w, id, fax) && (fax.outcome.Receiving? ==> SpoolOf(w.disk, id).pdf == None)
    ensures DiskInv(Save(w, id, fax))
  {
    var v := Save(w, id, fax);
    forall other | other in v.disk.records
      ensures StatusInv(v, other, v.disk.records[other])
    {
      assert StatusInv(w, other, v.disk.records[other]);
    }
  }

  /** A file of ours that adds nothing the invariants do not already allow. */
  ghost predicate MayAppear(w: World, path: Path, content: Content) {
    || (content.Unfinished? && path.Hidden())
    || (content.Pdf? && SpoolOf(w.disk, content.id).pdf == Some(content)
        && (path.Hidden() || (content.id, path) in w.linked))
  }

  /** A free name, or a temporary file of ours being completed. */
  lemma PutKeepsDisk(w: World, path: Path, content: Content)
    requires DiskInv(w) && MayAppear(w, path, content)
    requires path in w.disk.files ==> IsTemp(path) && w.disk.files[path].Unfinished?
    ensures DiskInv(Put(w, path, content))
  {
    var v := Put(w, path, content);
    forall id | id in v.disk.records
      ensures StatusInv(v, id, v.disk.records[id])
    {
      assert StatusInv(w, id, v.disk.records[id]);
    }
  }

  lemma StagingNamesDiffer(a: Id, b: Id, folder: string, other: string)
    ensures StagingPath(a, folder) == StagingPath(b, other) ==> a == b
  {
    var p, q := StagingPath(a, folder).name, StagingPath(b, other).name;
    if p == q {
      assert p[6..|p| - 4] == a;
      assert q[6..|q| - 4] == b;
    }
  }

  lemma RemoveKeepsDisk(w: World, path: Path)
    requires DiskInv(w) && path.Hidden()
    requires forall id :: id in w.disk.records && w.disk.records[id].status.Publishing? ==> w.disk.records[id].status.staging != path
    ensures DiskInv(Remove(w, path))
  {
    var v := Remove(w, path);
    forall id | id in v.disk.records
      ensures StatusInv(v, id, v.disk.records[id])
    {
      assert StatusInv(w, id, v.disk.records[id]);
    }
  }

  lemma TempIsNoStaging(w: World, path: Path)
    requires DiskInv(w) && IsTemp(path)
    ensures forall id :: id in w.disk.records && w.disk.records[id].status.Publishing? ==> w.disk.records[id].status.staging != path
  {
    forall id | id in w.disk.records && w.disk.records[id].status.Publishing?
      ensures w.disk.records[id].status.staging != path
    {
      assert StatusInv(w, id, w.disk.records[id]);
    }
  }

  lemma StagingIsPrivate(w: World, id: Id, path: Path)
    requires DiskInv(w) && id in w.disk.records && path == Staging(id, w.disk.records[id])
    requires !w.disk.records[id].status.Publishing?
    ensures forall other :: other in w.disk.records && w.disk.records[other].status.Publishing? ==>
      w.disk.records[other].status.staging != path
  {
    forall other | other in w.disk.records && w.disk.records[other].status.Publishing?
      ensures w.disk.records[other].status.staging != path
    {
      assert StatusInv(w, other, w.disk.records[other]);
      var f, g := w.disk.records[id].folder, w.disk.records[other].folder;
      StagingNamesDiffer(id, other, if f.Some? then f.value else "", if g.Some? then g.value else "");
    }
  }

  lemma SpoolKeepsDisk(w: World, id: Id, spool: Spool)
    requires DiskInv(w) && id in w.disk.records && SpoolOf(w.disk, id).pdf == None && SpoolInv(id, spool)
    requires spool.pdf.Some? ==> !w.disk.records[id].outcome.Receiving?
    ensures DiskInv(w.(disk := w.disk.(spools := w.disk.spools[id := spool])))
  {
    assert forall p :: (id, p) !in w.linked;
    assert forall p :: p in w.disk.files && w.disk.files[p].Pdf? ==> w.disk.files[p].id != id;
    SpoolKeepsRecords(w, id, spool);
  }

  lemma SpoolKeepsRecords(w: World, id: Id, spool: Spool)
    requires RecordsInv(w) && id in w.disk.records && SpoolOf(w.disk, id).pdf == None && SpoolInv(id, spool)
    requires spool.pdf.Some? ==> !w.disk.records[id].outcome.Receiving?
    ensures RecordsInv(w.(disk := w.disk.(spools := w.disk.spools[id := spool])))
  {
    var v := w.(disk := w.disk.(spools := w.disk.spools[id := spool]));
    forall other | other in v.disk.records
      ensures StatusInv(v, other, v.disk.records[other])
    {
      assert StatusInv(w, other, v.disk.records[other]);
    }
  }

  // ---------------------------------------------------- steps of an export

  lemma CheckedPc(w: World)
    requires Inv(w) && w.process.Exporting? && w.process.pc.Check?
    ensures ProcessInv(Checked(w)) && SameDisk(w, Checked(w))
  {
    var id := w.process.id;
    assert StatusInv(w, id, w.disk.records[id]) && SpoolInv(id, SpoolOf(w.disk, id));
    CheckedOne(w);
  }

  lemma CheckedOne(w: World)
    requires ProcessInv(w) && LinksInv(w) && FilesInv(w) && w.process.Exporting? && w.process.pc.Check?
    requires var id := w.process.id;
      && StatusInv(w, id, w.disk.records[id]) && SpoolInv(id, SpoolOf(w.disk, id))
      && (w.disk.records[id].outcome.Receiving? ==> SpoolOf(w.disk, id).pdf == None)
    ensures ProcessInv(Checked(w)) && SameDisk(w, Checked(w))
  {
  }

  lemma CheckKeepsInv(w: World)
    requires Inv(w) && w.process.Exporting? && w.process.pc.Check?
    ensures Inv(Checked(w))
  {
    CheckedPc(w);
    SameDiskKeeps(w, Checked(w));
  }

  lemma RenderedPc(w: World, input: Input)
    requires ProcessInv(w) && w.process.Exporting? && w.process.pc.Render?
    ensures ProcessInv(RenderedTo(w, input)) && SameDisk(w, RenderedTo(w, input))
  {
  }

  lemma RenderKeepsInv(w: World, input: Input)
    requires Inv(w) && w.process.Exporting? && w.process.pc.Render?
    ensures Inv(RenderedTo(w, input))
  {
    RenderedPc(w, input);
    SameDiskKeeps(w, RenderedTo(w, input));
  }

  /** What an error leaves to the handler agrees with the journal. */
  lemma PreparingMayFail(w: World)
    requires ProcessInv(w) && w.process.Exporting? && w.process.pc.Prepare?
    requires StatusInv(w, w.process.id, w.disk.records[w.process.id])
    ensures ProcessInv(At(w, w.process.fax, Failing))
  {
  }

  lemma PreparedBefore(w: World)
    requires ProcessInv(w) && w.process.Exporting? && w.process.pc.Prepare? && w.process.fax.folder.Some?
    requires StatusInv(w, w.process.id, w.disk.records[w.process.id])
    requires SameContent(w.disk, w.process.id, Staging(w.process.id, w.process.fax))
    ensures ProcessInv(At(w, w.process.fax, Announce(1)))
  {
  }

  lemma PreparedNow(w: World, path: Path)
    requires ProcessInv(w) && w.process.Exporting? && w.process.pc.Prepare? && w.process.fax.folder.Some? && IsTemp(path)
    ensures ProcessInv(At(Put(w, path, Unfinished), w.process.fax, Copy(path)))
  {
  }

  lemma PreparedPc(w: World, input: Input)
    requires ProcessInv(w) && w.process.Exporting? && w.process.pc.Prepare?
    requires StatusInv(w, w.process.id, w.disk.records[w.process.id])
    ensures ProcessInv(Prepared(w, input))
  {
    var Exporting(id, fax, _) := w.process;
    PreparingMayFail(w);
    if fax.folder.Some? && SameContent(w.disk, id, Staging(id, fax)) {
      PreparedBefore(w);
    } else if fax.folder.Some? && input.TempName? {
      PreparedNow(w, TempPath(fax, input.name));
    }
  }

  lemma PreparedDisk(w: World, input: Input)
    requires w.process.Exporting?
    ensures SameDisk(w, Prepared(w, input))
      || (input.TempName? && TempPath(w.process.fax, input.name) !in w.disk.files
          && SameDisk(Put(w, TempPath(w.process.fax, input.name), Unfinished), Prepared(w, input)))
  {
  }

  lemma PrepareKeepsInv(w: World, input: Input)
    requires Inv(w) && w.process.Exporting? && w.process.pc.Prepare?
    ensures Inv(Prepared(w, input))
  {
    assert StatusInv(w, w.process.id, w.disk.records[w.process.id]);
    PreparedPc(w, input);
    PreparedDisk(w, input);
    if SameDisk(w, Prepared(w, input)) {
      SameDiskKeeps(w, Prepared(w, input));
    } else {
      var created := Put(w, TempPath(w.process.fax, input.name), Unfinished);
      PutKeepsDisk(w, TempPath(w.process.fax, input.name), Unfinished);
      SameDiskKeeps(created, Prepared(w, input));
    }
  }

  lemma CopyKeepsInv(w: World)
    requires Inv(w) && w.process.Exporting? && w.process.pc.Copy?
    ensures Inv(Proceeded(w, Go))
  {
    PutKeepsDisk(w, w.process.pc.temp, SpoolOf(w.disk, w.process.id).pdf.value);
  }

  lemma StagedPc(w: World)
    requires Inv(w) && w.process.Exporting? && w.process.pc.Stage?
    ensures ProcessInv(Staged(w, w.process.pc.temp))
  {
    var Exporting(id, fax, pc) := w.process;
    assert StatusInv(w, id, w.disk.records[id]);
    if Staging(id, fax) in w.disk.files {
      StagingMayFail(w);
    } else {
      StagedNow(w);
    }
  }

  lemma StagingMayFail(w: World)
    requires ProcessInv(w) && w.process.Exporting? && w.process.pc.Stage?
    requires StatusInv(w, w.process.id, w.disk.records[w.process.id])
    ensures ProcessInv(At(Remove(w, w.process.pc.temp), w.process.fax, Failing))
  {
  }

  lemma StagedNow(w: World)
    requires ProcessInv(w) && w.process.Exporting? && w.process.pc.Stage?
    requires StatusInv(w, w.process.id, w.disk.records[w.process.id])
    ensures var Exporting(id, fax, pc) := w.process;
      ProcessInv(At(Put(Remove(w, pc.temp), Staging(id, fax), w.disk.files[pc.temp]), fax, Announce(1)))
  {
  }

  lemma StagedDisk(w: World, id: Id, path: Path, temp: Path)
    requires DiskInv(w) && id in w.disk.records && IsTemp(temp) && SameContent(w.disk, id, temp)
    requires path == Staging(id, w.disk.records[id])
    ensures DiskInv(Remove(w, temp))
    ensures path !in w.disk.files ==> DiskInv(Put(Remove(w, temp), path, w.disk.files[temp]))
  {
    TempIsNoStaging(w, temp);
    RemoveKeepsDisk(w, temp);
    if path !in w.disk.files {
      PutKeepsDisk(Remove(w, temp), path, w.disk.files[temp]);
    }
  }

  lemma StageKeepsInv(w: World)
    requires Inv(w) && w.process.Exporting? && w.process.pc.Stage?
    ensures Inv(Staged(w, w.process.pc.temp))
  {
    var Exporting(id, fax, pc) := w.process;
    StagedPc(w);
    StagedDisk(w, id, Staging(id, fax), pc.temp);
    if Staging(id, fax) in w.disk.files {
      SameDiskKeeps(Remove(w, pc.temp), Staged(w, pc.temp));
    } else {
      SameDiskKeeps(Put(Remove(w, pc.temp), Staging(id, fax), w.disk.files[pc.temp]), Staged(w, pc.temp));
    }
  }

  lemma AnnounceKeepsInv(w: World)
    requires Inv(w) && w.process.Exporting? && w.process.pc.Announce?
    ensures Inv(Proceeded(w, Go))
  {
  }

  lemma SavedPc(w: World)
    requires ProcessInv(w) && w.process.Exporting? && w.process.pc.SaveAnnounced?
    ensures ProcessInv(Proceeded(w, Go)) && SameDisk(Save(w, w.process.id, w.process.fax), Proceeded(w, Go))
  {
  }

  lemma SaveAnnouncedKeepsInv(w: World)
    requires Inv(w) && w.process.Exporting? && w.process.pc.SaveAnnounced?
    ensures Inv(Proceeded(w, Go))
  {
    SavedPc(w);
    SaveKeepsDisk(w, w.process.id, w.process.fax);
    SameDiskKeeps(Save(w, w.process.id, w.process.fax), Proceeded(w, Go));
  }

  lemma LinkKeepsDisk(w: World, id: Id, path: Path)
    requires DiskInv(w) && id in w.disk.records && SpoolOf(w.disk, id).pdf.Some?
    requires path !in w.disk.files && !path.Hidden()
    requires w.disk.records[id].status.Publishing? && w.disk.records[id].status.destination == path && Unlinked(w, id)
    ensures DiskInv(Put(w, path, SpoolOf(w.disk, id).pdf.value).(linked := w.linked + {(id, path)}))
  {
    var content := SpoolOf(w.disk, id).pdf.value;
    var v := Put(w, path, content).(linked := w.linked + {(id, path)});
    assert content.Pdf? && content.id == id;
    forall other | other in v.disk.records
      ensures StatusInv(v, other, v.disk.records[other])
    {
      assert StatusInv(w, other, v.disk.records[other]);
    }
  }

  lemma OccupiedPc(w: World, pc: Pc)
    requires ProcessInv(w) && w.process.Exporting? && w.process.pc.Link? && (pc.Announce? || pc.Failing?)
    ensures ProcessInv(At(w, w.process.fax, pc))
  {
  }

  lemma FreePc(w: World, path: Path)
    requires ProcessInv(w) && w.process.Exporting? && w.process.pc.Link? && w.process.fax.status.destination == path
    requires path !in w.disk.files && Staging(w.process.id, w.process.fax) in w.disk.files
    ensures var content := w.disk.files[Staging(w.process.id, w.process.fax)];
      ProcessInv(At(Put(w, path, content).(linked := w.linked + {(w.process.id, path)}), w.process.fax, Sync(path)))
  {
  }

  lemma LinkedPc(w: World)
    requires ProcessInv(w) && w.process.Exporting? && w.process.pc.Link?
    ensures ProcessInv(Linking(w, w.process.pc.suffix))
  {
    var Exporting(id, fax, pc) := w.process;
    OccupiedPc(w, Announce(pc.suffix + 1));
    OccupiedPc(w, Failing);
    if Target(fax, pc.suffix) !in w.disk.files && Staging(id, fax) in w.disk.files {
      FreePc(w, Target(fax, pc.suffix));
    }
  }

  lemma LinkKeepsInv(w: World)
    requires Inv(w) && w.process.Exporting? && w.process.pc.Link?
    ensures Inv(Linking(w, w.process.pc.suffix))
  {
    var Exporting(id, fax, pc) := w.process;
    var path := Target(fax, pc.suffix);
    LinkedPc(w);
    if path in w.disk.files {
      SameDiskKeeps(w, Linking(w, pc.suffix));
    } else {
      LinkKeepsDisk(w, id, path);
      SameDiskKeeps(Put(w, path, SpoolOf(w.disk, id).pdf.value).(linked := w.linked + {(id, path)}), Linking(w, pc.suffix));
    }
  }

  lemma SavePublishedKeepsInv(w: World)
    requires Inv(w) && w.process.Exporting? && (w.process.pc.SavePublished? || w.process.pc.SaveRecovered?)
    ensures Inv(Proceeded(w, Go))
  {
    var Exporting(id, fax, _) := w.process;
    assert StatusInv(w, id, w.disk.records[id]);
    PublishedPc(w);
    PublishedStatus(w);
    SaveKeepsDisk(w, id, fax);
    SameDiskKeeps(Save(w, id, fax), Proceeded(w, Go));
  }

  lemma PublishedPc(w: World)
    requires ProcessInv(w) && w.process.Exporting? && (w.process.pc.SavePublished? || w.process.pc.SaveRecovered?)
    ensures ProcessInv(Proceeded(w, Go)) && SameDisk(Save(w, w.process.id, w.process.fax), Proceeded(w, Go))
  {
  }

  lemma PublishedStatus(w: World)
    requires ProcessInv(w) && w.process.Exporting? && (w.process.pc.SavePublished? || w.process.pc.SaveRecovered?)
    requires StatusInv(w, w.process.id, w.disk.records[w.process.id])
    ensures StatusInv(w, w.process.id, w.process.fax)
  {
  }

  lemma CleanupKeepsInv(w: World)
    requires Inv(w) && w.process.Exporting? && w.process.pc.Cleanup?
    ensures Inv(Proceeded(w, Go))
  {
    var Exporting(id, fax, _) := w.process;
    StagingIsPrivate(w, id, Staging(id, fax));
    RemoveKeepsDisk(w, Staging(id, fax));
    IdleDisk(Remove(w, Staging(id, fax)), Proceeded(w, Go));
  }

  lemma SaveNoContentKeepsInv(w: World)
    requires Inv(w) && w.process.Exporting? && w.process.pc.SaveNoContent?
    ensures Inv(Proceeded(w, Go))
  {
    SaveKeepsDisk(w, w.process.id, w.process.fax);
    IdleDisk(Save(w, w.process.id, w.process.fax), Proceeded(w, Go));
  }

  lemma PersistedPc(w: World)
    requires ProcessInv(w) && w.process.Exporting? && (w.process.pc.PersistReport? || w.process.pc.PersistPdf?)
    ensures ProcessInv(Proceeded(w, Go))
  {
  }

  function WithSpool(w: World, id: Id, spool: Spool): World {
    w.(disk := w.disk.(spools := w.disk.spools[id := spool]))
  }

  lemma PersistKeepsInv(w: World)
    requires Inv(w) && w.process.Exporting? && (w.process.pc.PersistReport? || w.process.pc.PersistPdf?)
    ensures Inv(Proceeded(w, Go))
  {
    var Exporting(id, fax, pc) := w.process;
    var spool := SpoolOf(w.disk, id);
    var more := if pc.PersistReport? then spool.(report := Some(Report(fax.pages, fax.outcome))) else spool.(pdf := Some(pc.content));
    PersistedPc(w);
    SpoolKeepsDisk(w, id, more);
    SameDiskKeeps(WithSpool(w, id, more), Proceeded(w, Go));
  }

  lemma SyncedPc(w: World)
    requires ProcessInv(w) && w.process.Exporting? && (w.process.pc.Sync? || w.process.pc.SyncRecovered?)
    requires StatusInv(w, w.process.id, w.disk.records[w.process.id])
    ensures ProcessInv(Proceeded(w, Go)) && SameDisk(w, Proceeded(w, Go))
  {
  }

  lemma SyncKeepsInv(w: World)
    requires Inv(w) && w.process.Exporting? && (w.process.pc.Sync? || w.process.pc.SyncRecovered?)
    ensures Inv(Proceeded(w, Go))
  {
    assert StatusInv(w, w.process.id, w.disk.records[w.process.id]);
    SyncedPc(w);
    SameDiskKeeps(w, Proceeded(w, Go));
  }

  /** Only rendering and staging take anything from outside. */
  lemma InputIsIgnored(w: World, input: Input)
    requires w.process.Exporting? && !w.process.pc.Render? && !w.process.pc.Prepare?
    ensures Proceeded(w, input) == Proceeded(w, Go)
  {
  }

  predicate BeforeStaging(pc: Pc) {
    pc.Check? || pc.Render? || pc.SaveNoContent? || pc.PersistReport? || pc.PersistPdf? || pc.Prepare? || pc.Copy? || pc.Stage?
  }

  lemma EarlyStepKeepsInv(w: World, input: Input)
    requires Inv(w) && w.process.Exporting? && BeforeStaging(w.process.pc)
    ensures Inv(Proceeded(w, input))
  {
    match w.process.pc
    case Check => CheckKeepsInv(w);
    case Render => RenderKeepsInv(w, input);
    case SaveNoContent => SaveNoContentKeepsInv(w);
    case PersistReport(_) => PersistKeepsInv(w);
    case PersistPdf(_) => PersistKeepsInv(w);
    case Prepare => PrepareKeepsInv(w, input);
    case Copy(_) => CopyKeepsInv(w);
    case Stage(_) => StageKeepsInv(w);
  }

  lemma LateStepKeepsInv(w: World)
    requires Inv(w) && w.process.Exporting? && !BeforeStaging(w.process.pc) && !w.process.pc.Failing?
    ensures Inv(Proceeded(w, Go))
  {
    match w.process.pc
    case SyncRecovered(_) => SyncKeepsInv(w);
    case SaveRecovered => SavePublishedKeepsInv(w);
    case Announce(_) => AnnounceKeepsInv(w);
    case SaveAnnounced(_) => SaveAnnouncedKeepsInv(w);
    case Link(_) => LinkKeepsInv(w);
    case Sync(_) => SyncKeepsInv(w);
    case SavePublished => SavePublishedKeepsInv(w);
    case Cleanup => CleanupKeepsInv(w);
  }

  lemma ProceedKeepsInv(w: World, input: Input)
    requires Inv(w) && w.process.Exporting? && !w.process.pc.Failing?
    ensures Inv(Proceeded(w, input))
  {
    if BeforeStaging(w.process.pc) {
      EarlyStepKeepsInv(w, input);
    } else {
      InputIsIgnored(w, input);
      LateStepKeepsInv(w);
    }
  }

  // ---------------------------------------------- faults and other actors

  /** What the error handler would record is consistent with what was linked,
      unless it forgets a publication. */
  lemma HandledIsConsistent(w: World)
    requires Inv(w) && Enabled(w, Fault(true)) && !w.process.pc.Cleanup?
    ensures var Exporting(id, fax, pc) := w.process;
      var v := if LosesPublished(w) then w.(stumbled := w.stumbled + {id}) else w;
      StatusInv(v, id, Handled(fax)) && (fax.outcome.Receiving? ==> SpoolOf(w.disk, id).pdf == None)
  {
    assert StatusInv(w, w.process.id, w.disk.records[w.process.id]);
    if LosesPublished(w) {
      ForgottenIsConsistent(w);
    } else {
      KeptIsConsistent(w);
    }
  }

  lemma ForgottenIsConsistent(w: World)
    requires ProcessInv(w) && LosesPublished(w)
    ensures var Exporting(id, fax, pc) := w.process;
      StatusInv(w.(stumbled := w.stumbled + {id}), id, Handled(fax)) && !fax.outcome.Receiving?
  {
  }

  lemma KeptIsConsistent(w: World)
    requires ProcessInv(w) && Enabled(w, Fault(true)) && !w.process.pc.Cleanup? && !LosesPublished(w)
    requires var stored := w.disk.records[w.process.id];
      StatusInv(w, w.process.id, stored) && (stored.outcome.Receiving? ==> SpoolOf(w.disk, w.process.id).pdf == None)
    ensures var Exporting(id, fax, pc) := w.process;
      StatusInv(w, id, Handled(fax)) && (fax.outcome.Receiving? ==> SpoolOf(w.disk, id).pdf == None)
  {
  }

  lemma DroppedKeepsDisk(w: World)
    requires Inv(w) && w.process.Exporting?
    ensures DiskInv(Dropped(w))
    ensures Dropped(w).disk.records == w.disk.records && Dropped(w).disk.spools == w.disk.spools
    ensures Dropped(w).linked == w.linked && Dropped(w).stumbled == w.stumbled
    ensures forall p :: p in w.disk.files && !IsTemp(p) ==> p in Dropped(w).disk.files && Dropped(w).disk.files[p] == w.disk.files[p]
  {
    match w.process.pc
    case Copy(temp) => TempIsNoStaging(w, temp); RemoveKeepsDisk(w, temp);
    case Stage(temp) => TempIsNoStaging(w, temp); RemoveKeepsDisk(w, temp);
    case _ =>
  }

  lemma StumbleKeepsDisk(w: World, id: Id)
    requires DiskInv(w)
    ensures DiskInv(w.(stumbled := w.stumbled + {id}))
  {
    var v := w.(stumbled := w.stumbled + {id});
    forall other | other in v.disk.records
      ensures StatusInv(v, other, v.disk.records[other])
    {
      assert StatusInv(w, other, v.disk.records[other]);
    }
  }

  lemma IdleDisk(w: World, v: World)
    requires DiskInv(w) && SameDisk(w, v) && v.process.Idle?
    ensures Inv(v)
  {
    forall id | id in v.disk.records
      ensures StatusInv(v, id, v.disk.records[id])
    {
      assert StatusInv(w, id, v.disk.records[id]);
    }
  }

  lemma FaultKeepsInv(w: World, saved: bool)
    requires Inv(w) && Enabled(w, Fault(saved))
    ensures Inv(Faulted(w, saved))
  {
    var Exporting(id, fax, pc) := w.process;
    DroppedKeepsDisk(w);
    var dropped := Dropped(w);
    IdleDisk(dropped, dropped.(process := Idle));
    if saved && !pc.Cleanup? {
      HandledIsConsistent(w);
      var blamed := if LosesPublished(w) then dropped.(stumbled := dropped.stumbled + {id}) else dropped;
      StumbleKeepsDisk(dropped, id);
      assert StatusInv(blamed, id, Handled(fax));
      SaveKeepsDisk(blamed, id, Handled(fax));
      IdleDisk(Save(blamed, id, Handled(fax)), Faulted(w, saved));
    }
  }

  lemma OutsideKeepsDisk(w: World, files: map<Path, Content>)
    requires DiskInv(w) && Enabled(w, Outside(files))
    ensures DiskInv(Step(w, Outside(files)))
  {
    var v := Step(w, Outside(files));
    forall id | id in v.disk.records
      ensures StatusInv(v, id, v.disk.records[id])
    {
      assert StatusInv(w, id, v.disk.records[id]);
    }
  }

  lemma OutsideKeepsOurs(w: World, files: map<Path, Content>, id: Id, path: Path)
    requires Inv(w) && Enabled(w, Outside(files)) && SameContent(w.disk, id, path)
    ensures SameContent(w.disk.(files := files), id, path)
  {
    assert SpoolInv(id, SpoolOf(w.disk, id));
  }

  lemma OutsideKeepsProcess(w: World, files: map<Path, Content>)
    requires Inv(w) && Enabled(w, Outside(files))
    ensures ProcessInv(Step(w, Outside(files)))
  {
    if w.process.Exporting? {
      var Exporting(id, fax, pc) := w.process;
      if SameContent(w.disk, id, Staging(id, fax)) {
        OutsideKeepsOurs(w, files, id, Staging(id, fax));
      }
      if pc.Stage? {
        OutsideKeepsOurs(w, files, id, pc.temp);
      }
      if pc.Failing? && Handled(fax).status.Publishing? {
        OutsideKeepsOurs(w, files, id, fax.status.staging);
      }
    }
  }

  lemma OutsideKeepsInv(w: World, files: map<Path, Content>)
    requires Inv(w) && Enabled(w, Outside(files))
    ensures Inv(Step(w, Outside(files)))
  {
    OutsideKeepsDisk(w, files);
    OutsideKeepsProcess(w, files);
  }

  lemma ArriveKeepsDisk(w: World, a: Action)
    requires DiskInv(w) && Enabled(w, a) && a.Arrive?
    ensures DiskInv(Step(w, a))
  {
    var v := Step(w, a);
    forall id | id in v.disk.records
      ensures StatusInv(v, id, v.disk.records[id])
    {
      if id in w.disk.records {
        assert StatusInv(w, id, w.disk.records[id]);
      }
    }
  }

  lemma FinishKeepsDisk(w: World, a: Action)
    requires DiskInv(w) && Enabled(w, a) && a.Finish?
    ensures DiskInv(Step(w, a))
  {
    assert StatusInv(w, a.id, w.disk.records[a.id]);
    SaveKeepsDisk(w, a.id, w.disk.records[a.id].(outcome := a.outcome));
  }

  lemma ArriveKeepsProcess(w: World, a: Action)
    requires ProcessInv(w) && Enabled(w, a) && a.Arrive?
    ensures ProcessInv(Step(w, a))
  {
  }

  lemma FinishKeepsProcess(w: World, a: Action)
    requires ProcessInv(w) && Enabled(w, a) && a.Finish?
    ensures ProcessInv(Step(w, a))
  {
  }

  lemma OthersKeepInv(w: World, a: Action)
    requires Inv(w) && Enabled(w, a) && (a.Arrive? || a.Finish?)
    ensures Inv(Step(w, a))
  {
    if a.Arrive? {
      ArriveKeepsDisk(w, a);
      ArriveKeepsProcess(w, a);
    } else {
      FinishKeepsDisk(w, a);
      FinishKeepsProcess(w, a);
    }
  }

  lemma StepKeepsInv(w: World, a: Action)
    requires Inv(w) && Enabled(w, a)
    ensures Inv(Step(w, a))
  {
    match a
    case Start(id) => assert StatusInv(w, id, w.disk.records[id]);
    case Proceed(input) => ProceedKeepsInv(w, input);
    case Fault(saved) => FaultKeepsInv(w, saved);
    case Death => IdleDisk(w, Step(w, a));
    case Arrive(_, _, _) => OthersKeepInv(w, a);
    case Finish(_, _) => OthersKeepInv(w, a);
    case Outside(files) => OutsideKeepsInv(w, files);
  }

  lemma {:induction false} RunKeepsInv(w: World, actions: seq<Action>, after: World)
    requires Inv(w) && Runs(w, actions, after)
    ensures Inv(after)
    decreases |actions|
  {
    if actions != [] {
      StepKeepsInv(w, actions[0]);
      RunKeepsInv(Step(w, actions[0]), actions[1..], after);
    }
  }
}
