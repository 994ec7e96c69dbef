/**
 Publishing a received fax as a PDF, as a machine over durable effects. Every
 action changes at most one journal record, spool file or folder entry, so a
 process death between any two of them is an action like the others.
 */
module Publication {
  import opened Words
  import opened Text

  type Id = string

  datatype Path = Path(folder: string, name: string) {
    /** Staging and temporary files are hidden; destinations never are. */
    predicate Hidden() {
      name != "" && name[0] == '.'
    }
  }

  datatype Outcome = Receiving | Received | Damaged(reason: string) | Broken(reason: string) | Interrupted

  /** A file's content. Every PDF carries its reception's marker, so PDFs of
      different receptions differ, and no other program writes one. */
  datatype Content =
    | Pdf(id: Id, pages: nat, outcome: Outcome, bytes: string)
    | Unfinished
    | Foreign(text: string)

  predicate Ours(c: Content) {
    !c.Foreign?
  }

  datatype Status =
    | Pending
    | Publishing(destination: Path, staging: Path, error: bool)
    | Published(path: Path)
    | Failed
    | NoContent

  datatype Fax = Fax(outcome: Outcome, pages: nat, folder: Option<string>, stem: string, status: Status)

  datatype Report = Report(pages: nat, outcome: Outcome)

  datatype Spool = Spool(report: Option<Report>, pdf: Option<Content>)

  /** The durable state: the journal, the private spools and the shared folders. */
  datatype Disk = Disk(records: map<Id, Fax>, spools: map<Id, Spool>, files: map<Path, Content>)

  /** The next effect of a running status. */
  datatype Pc =
    | Check
    | SyncRecovered(path: Path)
    | SaveRecovered
    | Render
    | SaveNoContent
    | PersistReport(content: Content)
    | PersistPdf(content: Content)
    | Prepare
    | Copy(temp: Path)
    | Stage(temp: Path)
    | Announce(suffix: nat)
    | SaveAnnounced(suffix: nat)
    | Link(suffix: nat)
    | Sync(path: Path)
    | SavePublished
    | Cleanup
    | Failing

  datatype Process = Idle | Exporting(id: Id, fax: Fax, pc: Pc)

  /** `linked` and `stumbled` only record history: the names linked for each
      reception, and the receptions whose record was overwritten with a failure
      after one was linked. */
  datatype World = World(disk: Disk, process: Process, linked: set<(Id, Path)>, stumbled: set<Id>)

  datatype Input = Go | TempName(name: string) | Nothing | Rendered(pages: nat, outcome: Outcome, bytes: string)

  datatype Action =
    | Start(id: Id)
    | Proceed(input: Input)
    | Fault(saved: bool)
    | Death
    | Arrive(id: Id, folder: Option<string>, stem: string)
    | Finish(id: Id, outcome: Outcome)
    | Outside(files: map<Path, Content>)

  const MAX_SUFFIX: nat := 100_000

  function StagingPath(id: Id, folder: string): (p: Path)
    ensures p.Hidden() && !IsTemp(p)
  {
    Path(folder, ".faxe-" + id + ".pdf")
  }

  predicate ValidStem(stem: string) {
    stem != "" && stem[0] != '.'
  }

  function Destination(folder: string, stem: string, suffix: nat): (p: Path)
    requires ValidStem(stem)
    ensures !p.Hidden()
  {
    Path(folder, if suffix == 1 then stem + ".pdf" else stem + "-" + Decimal(suffix) + ".pdf")
  }

  function Save(w: World, id: Id, fax: Fax): World {
    w.(disk := w.disk.(records := w.disk.records[id := fax]))
  }

  function At(w: World, fax: Fax, pc: Pc): World
    requires w.process.Exporting?
  {
    w.(process := Exporting(w.process.id, fax, pc))
  }

  function Put(w: World, path: Path, content: Content): World {
    w.(disk := w.disk.(files := w.disk.files[path := content]))
  }

  function Remove(w: World, path: Path): World {
    w.(disk := w.disk.(files := w.disk.files - {path}))
  }

  function SpoolOf(d: Disk, id: Id): Spool {
    if id in d.spools then d.spools[id] else Spool(None, None)
  }

  predicate SameContent(d: Disk, id: Id, path: Path) {
    path in d.files && SpoolOf(d, id).pdf == Some(d.files[path])
  }

  /** The internal report overrides what the journal says about the content. */
  function WithReport(fax: Fax, spool: Spool): Fax {
    if spool.pdf.Some? && spool.report.Some?
    then fax.(pages := spool.report.value.pages, outcome := spool.report.value.outcome)
    else fax
  }

  function Staging(id: Id, fax: Fax): Path {
    StagingPath(id, if fax.folder.Some? then fax.folder.value else "")
  }

  function Target(fax: Fax, suffix: nat): Path {
    if ValidStem(fax.stem) && fax.folder.Some? then Destination(fax.folder.value, fax.stem, suffix) else Path("", "")
  }

  function Checked(w: World): World
    requires w.process.Exporting?
  {
    var Exporting(id, loaded, _) := w.process;
    var spool := SpoolOf(w.disk, id);
    if loaded.outcome.Receiving? then At(w, loaded, Failing)
    else if Finished(loaded) then w.(process := Idle)
    else
      var fax := WithReport(loaded, spool);
      if fax.status.Publishing? && SameContent(w.disk, id, fax.status.destination)
      then At(w, fax, SyncRecovered(fax.status.destination))
      else if spool.pdf.None? then At(w, fax, Render)
      else At(w, fax, Prepare)
  }

  function RenderedTo(w: World, input: Input): World
    requires w.process.Exporting?
  {
    var Exporting(id, fax, _) := w.process;
    match input
    case Nothing => At(w, fax.(status := NoContent), SaveNoContent)
    case Rendered(pages, outcome, bytes) =>
      if outcome.Receiving? then At(w, fax, Failing)
      else At(w, fax.(pages := pages, outcome := outcome), PersistReport(Pdf(id, pages, outcome, bytes)))
    case _ => At(w, fax, Failing)
  }

  function Prepared(w: World, input: Input): World
    requires w.process.Exporting?
  {
    var Exporting(id, fax, _) := w.process;
    if fax.folder.None? || !ValidStem(fax.stem) then At(w, fax, Failing)
    else if Staging(id, fax) in w.disk.files then
      if SameContent(w.disk, id, Staging(id, fax)) then At(w, fax, Announce(1)) else At(w, fax, Failing)
    else if input.TempName? && TempPath(fax, input.name) !in w.disk.files then
      At(Put(w, TempPath(fax, input.name), Unfinished), fax, Copy(TempPath(fax, input.name)))
    else At(w, fax, Failing)
  }

  predicate IsTemp(p: Path) {
    |p.name| > 1 && p.name[0] == '.' && p.name[1] == 't'
  }

  function TempPath(fax: Fax, name: string): (p: Path)
    ensures IsTemp(p)
  {
    Path(if fax.folder.Some? then fax.folder.value else "", ".tmp" + name)
  }

  /** Linking never replaces a file: an occupied name only moves on to the next one. */
  function Linking(w: World, suffix: nat): World
    requires w.process.Exporting?
  {
    var Exporting(id, fax, _) := w.process;
    if Target(fax, suffix) in w.disk.files then
      if suffix < MAX_SUFFIX then At(w, fax, Announce(suffix + 1)) else At(w, fax, Failing)
    else if Staging(id, fax) in w.disk.files then
      At(Put(w, Target(fax, suffix), w.disk.files[Staging(id, fax)]).(linked := w.linked + {(id, Target(fax, suffix))}),
         fax, Sync(Target(fax, suffix)))
    else At(w, fax, Failing)
  }

  function Staged(w: World, temp: Path): World
    requires w.process.Exporting?
  {
    var Exporting(id, fax, _) := w.process;
    if Staging(id, fax) in w.disk.files || temp !in w.disk.files then At(Remove(w, temp), fax, Failing)
    else At(Put(Remove(w, temp), Staging(id, fax), w.disk.files[temp]), fax, Announce(1))
  }

  function Proceeded(w: World, input: Input): World
    requires w.process.Exporting?
  {
    var Exporting(id, fax, pc) := w.process;
    var spool := SpoolOf(w.disk, id);
    match pc
    case Check => Checked(w)
    case SyncRecovered(path) => At(w, fax.(status := Published(path)), SaveRecovered)
    case SaveRecovered => At(Save(w, id, fax), fax, Cleanup)
    case Render => RenderedTo(w, input)
    case SaveNoContent => Save(w, id, fax).(process := Idle)
    case PersistReport(content) =>
      At(w.(disk := w.disk.(spools := w.disk.spools[id := spool.(report := Some(Report(fax.pages, fax.outcome)))])),
         fax, PersistPdf(content))
    case PersistPdf(content) =>
      At(w.(disk := w.disk.(spools := w.disk.spools[id := spool.(pdf := Some(content))])), fax, Prepare)
    case Prepare => Prepared(w, input)
    case Copy(temp) => if spool.pdf.Some? then At(Put(w, temp, spool.pdf.value), fax, Stage(temp)) else At(w, fax, Failing)
    case Stage(temp) => Staged(w, temp)
    case Announce(suffix) =>
      At(w, fax.(status := Publishing(Target(fax, suffix), Staging(id, fax), false)), SaveAnnounced(suffix))
    case SaveAnnounced(suffix) => At(Save(w, id, fax), fax, Link(suffix))
    case Link(suffix) => Linking(w, suffix)
    case Sync(path) => At(w, fax.(status := Published(path)), SavePublished)
    case SavePublished => At(Save(w, id, fax), fax, Cleanup)
    case Cleanup => Remove(w, Staging(id, fax)).(process := Idle)
    case Failing => w
  }

  /** What the actor records after an export error: an announced destination is
      kept, anything else becomes a plain failure. */
  function Handled(fax: Fax): Fax {
    if fax.status.Publishing? then fax.(status := fax.status.(error := true)) else fax.(status := Failed)
  }

  /** An unfinished temporary file is deleted on the way out of an error. */
  function Dropped(w: World): World {
    if w.process.Exporting? && w.process.pc.Copy? then Remove(w, w.process.pc.temp)
    else if w.process.Exporting? && w.process.pc.Stage? then Remove(w, w.process.pc.temp)
    else w
  }

  predicate LosesPublished(w: World) {
    w.process.Exporting? && (w.process.pc.SaveRecovered? || w.process.pc.SavePublished?)
  }

  function Faulted(w: World, saved: bool): World
    requires w.process.Exporting?
  {
    var Exporting(id, fax, pc) := w.process;
    var dropped := Dropped(w).(process := Idle);
    if pc.Cleanup? then dropped
    else if !saved then dropped
    else Save(dropped, id, Handled(fax)).(stumbled := if LosesPublished(w) then w.stumbled + {id} else w.stumbled)
  }

  /** A finished export returns before it touches anything that can fail. */
  predicate Finished(fax: Fax) {
    !fax.outcome.Receiving? && (fax.status.Published? || fax.status.NoContent?)
  }

  ghost predicate Enabled(w: World, a: Action) {
    match a
    case Start(id) => w.process.Idle? && id in w.disk.records
    case Proceed(_) => w.process.Exporting? && !w.process.pc.Failing?
    case Fault(_) => w.process.Exporting? && !(w.process.pc.Check? && Finished(w.process.fax))
    case Death => true
    case Arrive(id, folder, stem) => id !in w.disk.records && ValidStem(stem)
    case Finish(id, outcome) =>
      id in w.disk.records && w.disk.records[id].outcome.Receiving? && !outcome.Receiving?
      && !(w.process.Exporting? && w.process.id == id)
    case Outside(files) =>
      && (forall p :: p in w.disk.files && Ours(w.disk.files[p]) ==> p in files && files[p] == w.disk.files[p])
      && (forall p :: p in files && Ours(files[p]) ==> p in w.disk.files && w.disk.files[p] == files[p])
  }

  function Step(w: World, a: Action): World
    requires Enabled(w, a)
  {
    match a
    case Start(id) => w.(process := Exporting(id, w.disk.records[id], Check))
    case Proceed(input) => Proceeded(w, input)
    case Fault(saved) => Faulted(w, saved)
    case Death => w.(process := Idle)
    case Arrive(id, folder, stem) =>
      Save(w, id, Fax(Receiving, 0, folder, stem, Pending)).(disk := Disk(
        w.disk.records[id := Fax(Receiving, 0, folder, stem, Pending)], w.disk.spools[id := Spool(None, None)], w.disk.files))
    case Finish(id, outcome) => Save(w, id, w.disk.records[id].(outcome := outcome))
    case Outside(files) => w.(disk := w.disk.(files := files))
  }

  /** A run of enabled actions from a world to another. */
  ghost predicate Runs(w: World, actions: seq<Action>, after: World)
    decreases |actions|
  {
    if actions == [] then after == w
    else Enabled(w, actions[0]) && Runs(Step(w, actions[0]), actions[1..], after)
  }

  /** A computer on which this program has not run yet. */
  ghost predicate Fresh(w: World) {
    && w.disk.records == map[] && w.disk.spools == map[] && w.process == Idle && w.linked == {} && w.stumbled == {}
    && forall p :: p in w.disk.files ==> !Ours(w.disk.files[p])
  }
}
