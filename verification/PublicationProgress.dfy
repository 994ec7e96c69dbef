/**
 What an export does when nothing disturbs it: where it ends is stated in one piece,
 apart from the machine's steps, and the machine is shown to end exactly there.
 */
module PublicationProgress {
  import opened Words
  import opened Publication
  import Theorems = PublicationTheorems

  /** What the machine is given at a step: the image of the pages, the name of a
      temporary file, or nothing. */
  function InputAt(pc: Pc, image: Input, name: string): Input {
    if pc.Render? then image else if pc.Prepare? then TempName(name) else Go
  }

  predicate Settled(w: World) {
    w.process.Idle? || w.process.pc.Failing?
  }

  function NamesLeft(suffix: nat): nat {
    if suffix < MAX_SUFFIX then MAX_SUFFIX - suffix else 0
  }

  /** A bound on the steps still ahead. */
  function Rank(pc: Pc): nat {
    match pc
    case Failing => 0
    case Cleanup => 1
    case SavePublished | SaveRecovered | SaveNoContent => 2
    case Sync(_) | SyncRecovered(_) => 3
    case Link(suffix) => 4 + 3 * NamesLeft(suffix)
    case SaveAnnounced(suffix) => 5 + 3 * NamesLeft(suffix)
    case Announce(suffix) => 6 + 3 * NamesLeft(suffix)
    case Stage(_) => 7 + 3 * MAX_SUFFIX
    case Copy(_) => 8 + 3 * MAX_SUFFIX
    case Prepare => 9 + 3 * MAX_SUFFIX
    case PersistPdf(_) => 10 + 3 * MAX_SUFFIX
    case PersistReport(_) => 11 + 3 * MAX_SUFFIX
    case Render => 12 + 3 * MAX_SUFFIX
    case Check => 13 + 3 * MAX_SUFFIX
  }

  lemma StepsDescend(w: World, input: Input)
    requires !Settled(w)
    ensures Proceeded(w, input).process.Exporting? ==> Rank(Proceeded(w, input).process.pc) < Rank(w.process.pc)
  {
    match w.process.pc
    case Link(suffix) => LinkingDescends(w, suffix);
    case Prepare => PreparingDescends(w, input);
    case Check => CheckingDescends(w);
    case _ =>
  }

  lemma LinkingDescends(w: World, suffix: nat)
    requires w.process.Exporting?
    ensures Linking(w, suffix).process.Exporting? && Rank(Linking(w, suffix).process.pc) < Rank(Link(suffix))
  {
  }

  lemma PreparingDescends(w: World, input: Input)
    requires w.process.Exporting?
    ensures Prepared(w, input).process.Exporting? && Rank(Prepared(w, input).process.pc) < Rank(Prepare)
  {
  }

  lemma CheckingDescends(w: World)
    requires w.process.Exporting?
    ensures Checked(w).process.Exporting? ==> Rank(Checked(w).process.pc) < Rank(Check)
  {
  }

  /** Where an export ends that nothing disturbs: idle, or failing. */
  ghost function Undisturbed(w: World, image: Input, name: string): (after: World)
    ensures Settled(after)
    decreases if w.process.Exporting? then 1 + Rank(w.process.pc) else 0
  {
    if Settled(w) then w
    else
      StepsDescend(w, InputAt(w.process.pc, image, name));
      Undisturbed(Proceeded(w, InputAt(w.process.pc, image, name)), image, name)
  }

  /** It is a run of the machine's own steps alone. */
  lemma {:induction false} UndisturbedIsRun(w: World, image: Input, name: string) returns (actions: seq<Action>)
    ensures Runs(w, actions, Undisturbed(w, image, name)) && forall a :: a in actions ==> a.Proceed?
    decreases if w.process.Exporting? then 1 + Rank(w.process.pc) else 0
  {
    actions := [];
    if !Settled(w) {
      var a := Proceed(InputAt(w.process.pc, image, name));
      StepsDescend(w, a.input);
      var rest := UndisturbedIsRun(Step(w, a), image, name);
      Theorems.RunsMore(w, a, rest, Undisturbed(w, image, name));
      actions := [a] + rest;
    }
  }

  // ------------------------------------------------ where an export ends

  /** The first suffix from `from` on that is not taken. */
  function First(taken: nat -> bool, from: nat): (free: Option<nat>)
    decreases MAX_SUFFIX + 1 - from
  {
    if from > MAX_SUFFIX then None else if !taken(from) then Some(from) else First(taken, from + 1)
  }

  lemma {:induction false} FirstIs(taken: nat -> bool, from: nat, n: nat)
    requires from <= n <= MAX_SUFFIX + 1 && (forall s :: from <= s < n ==> taken(s)) && (n <= MAX_SUFFIX ==> !taken(n))
    ensures First(taken, from) == if n <= MAX_SUFFIX then Some(n) else None
    decreases n - from
  {
    if from < n {
      FirstIs(taken, from + 1, n);
    }
  }

  lemma {:induction false} FirstIsFree(taken: nat -> bool, from: nat)
    ensures var free := First(taken, from);
      && (free.Some? ==> from <= free.value <= MAX_SUFFIX && !taken(free.value))
      && (forall s :: from <= s < (if free.Some? then free.value else MAX_SUFFIX + 1) ==> taken(s))
    decreases MAX_SUFFIX + 1 - from
  {
    if from <= MAX_SUFFIX && taken(from) {
      FirstIsFree(taken, from + 1);
    }
  }

  lemma {:induction false} FirstAgrees(a: nat -> bool, b: nat -> bool, from: nat)
    requires forall s :: a(s) == b(s)
    ensures First(a, from) == First(b, from)
    decreases MAX_SUFFIX + 1 - from
  {
    assert a(from) == b(from);
    if from <= MAX_SUFFIX {
      FirstAgrees(a, b, from + 1);
    }
  }

  /** The first name of a fax that no file has. */
  function FirstFree(files: map<Path, Content>, fax: Fax, from: nat): (free: Option<nat>) {
    First((s: nat) => Target(fax, s) in files, from)
  }

  /** Recorded as published at `path`, and the staging copy removed. */
  function Recorded(w: World, path: Path): World
    requires w.process.Exporting?
  {
    var Exporting(id, fax, _) := w.process;
    World(Disk(w.disk.records[id := fax.(status := Published(path))], w.disk.spools, w.disk.files - {Staging(id, fax)}),
          Idle, w.linked, w.stumbled)
  }

  /** Published under the name with suffix `n`, and the staging copy removed. */
  function NamedAt(w: World, n: nat): World
    requires w.process.Exporting? && Staging(w.process.id, w.process.fax) in w.disk.files
  {
    var Exporting(id, fax, _) := w.process;
    var target, staging := Target(fax, n), Staging(id, fax);
    World(Disk(w.disk.records[id := fax.(status := Published(target))], w.disk.spools,
               w.disk.files[target := w.disk.files[staging]] - {staging}),
          Idle, w.linked + {(id, target)}, w.stumbled)
  }

  /** The last name there is was announced, and is taken too. */
  function Nameless(w: World): World
    requires w.process.Exporting?
  {
    var Exporting(id, fax, _) := w.process;
    var announced := fax.(status := Publishing(Target(fax, MAX_SUFFIX), Staging(id, fax), false));
    At(Save(w, id, announced), announced, Failing)
  }

  /** With its copy staged, the fax gets the first free name from `from` on. */
  function Named(w: World, from: nat): World
    requires w.process.Exporting? && Staging(w.process.id, w.process.fax) in w.disk.files
  {
    var free := FirstFree(w.disk.files, w.process.fax, from);
    if free.Some? then NamedAt(w, free.value) else Nameless(w)
  }

  /** The folder can take the copy of a PDF. */
  predicate Stageable(files: map<Path, Content>, id: Id, fax: Fax, pdf: Content, name: string) {
    && fax.folder.Some? && ValidStem(fax.stem)
    && (if Staging(id, fax) in files then files[Staging(id, fax)] == pdf else TempPath(fax, name) !in files)
  }

  predicate CanStage(w: World, name: string)
    requires w.process.Exporting? && SpoolOf(w.disk, w.process.id).pdf.Some?
  {
    Stageable(w.disk.files, w.process.id, w.process.fax, SpoolOf(w.disk, w.process.id).pdf.value, name)
  }

  /** The PDF in the spool has its copy under the staging name. */
  function WithCopy(w: World): World
    requires w.process.Exporting? && SpoolOf(w.disk, w.process.id).pdf.Some?
  {
    var Exporting(id, fax, _) := w.process;
    At(Put(w, Staging(id, fax), SpoolOf(w.disk, id).pdf.value), fax, Announce(1))
  }

  /** The PDF in the spool is copied and published. */
  function Placed(w: World, name: string): World
    requires w.process.Exporting? && SpoolOf(w.disk, w.process.id).pdf.Some?
  {
    if CanStage(w, name) then Named(WithCopy(w), 1) else At(w, w.process.fax, Failing)
  }

  function Spooled(w: World, id: Id, pdf: Content): World
    requires pdf.Pdf?
  {
    w.(disk := w.disk.(spools := w.disk.spools[id := Spool(Some(Report(pdf.pages, pdf.outcome)), Some(pdf))]))
  }

  predicate Usable(image: Input) {
    image.Rendered? && !image.outcome.Receiving?
  }

  /** The pages are in the spool as a PDF, next to the report on it. */
  function WithPdf(w: World, image: Input): World
    requires w.process.Exporting? && Usable(image)
  {
    var Exporting(id, fax, _) := w.process;
    At(Spooled(w, id, Pdf(id, image.pages, image.outcome, image.bytes)),
       fax.(pages := image.pages, outcome := image.outcome), Prepare)
  }

  /** The pages are drawn, and their PDF is published; no pages are a result too. */
  function Drawn(w: World, image: Input, name: string): World
    requires w.process.Exporting?
  {
    var Exporting(id, fax, _) := w.process;
    if image.Nothing? then Save(w, id, fax.(status := NoContent)).(process := Idle)
    else if Usable(image) then Placed(WithPdf(w, image), name)
    else At(w, fax, Failing)
  }

  predicate Exportable(fax: Fax) {
    !fax.outcome.Receiving? && !Finished(fax)
  }

  /** An earlier run has linked the fax without recording it. */
  predicate Linked(d: Disk, id: Id, fax: Fax) {
    fax.status.Publishing? && SameContent(d, id, fax.status.destination)
  }

  /** The result of a whole export of a stored reception. */
  function Exported(w: World, image: Input, name: string): World
    requires w.process.Exporting?
  {
    var Exporting(id, loaded, pc) := w.process;
    var spool := SpoolOf(w.disk, id);
    var fax := WithReport(loaded, spool);
    if loaded.outcome.Receiving? then At(w, loaded, Failing)
    else if Finished(loaded) then w.(process := Idle)
    else if Linked(w.disk, id, loaded) then
      Recorded(At(w, fax, pc), fax.status.destination)
    else if spool.pdf.None? then Drawn(At(w, fax, pc), image, name)
    else Placed(At(w, fax, pc), name)
  }

  // ----------------------------------------------- the machine ends there

  lemma Onward(w: World, image: Input, name: string) returns (next: World)
    requires !Settled(w)
    ensures next == Proceeded(w, InputAt(w.process.pc, image, name))
    ensures Undisturbed(w, image, name) == Undisturbed(next, image, name)
  {
    next := Proceeded(w, InputAt(w.process.pc, image, name));
  }

  lemma Recording(w: World, path: Path, image: Input, name: string)
    requires w.process.Exporting? && (w.process.pc == SyncRecovered(path) || w.process.pc == Sync(path))
    ensures Undisturbed(w, image, name) == Recorded(w, path)
  {
    var saving := Onward(w, image, name);
    var cleaning := Onward(saving, image, name);
    var done := Onward(cleaning, image, name);
  }

  /** The fax once its name is announced. */
  function Announced(w: World, suffix: nat): Fax
    requires w.process.Exporting?
  {
    w.process.fax.(status := Publishing(Target(w.process.fax, suffix), Staging(w.process.id, w.process.fax), false))
  }

  function AfterOccupied(w: World, suffix: nat): World
    requires w.process.Exporting?
  {
    At(Save(w, w.process.id, Announced(w, suffix)), Announced(w, suffix), Announce(suffix + 1))
  }

  /** One name announced, and linked if it is free. */
  function Tried(w: World, suffix: nat): World
    requires w.process.Exporting?
  {
    var announced := Announced(w, suffix);
    Linking(At(Save(w, w.process.id, announced), announced, Link(suffix)), suffix)
  }

  lemma NameIsTried(w: World, suffix: nat, image: Input, name: string)
    requires w.process.Exporting? && w.process.pc == Announce(suffix)
    ensures Undisturbed(w, image, name) == Undisturbed(Tried(w, suffix), image, name)
  {
    var saving := Onward(w, image, name);
    var linking := Onward(saving, image, name);
    var next := Onward(linking, image, name);
  }

  lemma FreeNameIsRecorded(w: World, suffix: nat)
    requires w.process.Exporting? && suffix <= MAX_SUFFIX && Target(w.process.fax, suffix) !in w.disk.files
    requires Staging(w.process.id, w.process.fax) in w.disk.files
    ensures Tried(w, suffix).process.Exporting? && Tried(w, suffix).process.pc == Sync(Target(w.process.fax, suffix))
    ensures Recorded(Tried(w, suffix), Target(w.process.fax, suffix)) == Named(w, suffix)
  {
    assert FirstFree(w.disk.files, w.process.fax, suffix) == Some(suffix);
    RecordedIsNamed(w, suffix);
  }

  lemma RecordedIsNamed(w: World, suffix: nat)
    requires w.process.Exporting? && Target(w.process.fax, suffix) !in w.disk.files
    requires Staging(w.process.id, w.process.fax) in w.disk.files
    ensures Tried(w, suffix).process.Exporting? && Tried(w, suffix).process.pc == Sync(Target(w.process.fax, suffix))
    ensures Recorded(Tried(w, suffix), Target(w.process.fax, suffix)) == NamedAt(w, suffix)
  {
  }

  lemma LastNameFails(w: World)
    requires w.process.Exporting? && Target(w.process.fax, MAX_SUFFIX) in w.disk.files
    requires Staging(w.process.id, w.process.fax) in w.disk.files
    ensures Tried(w, MAX_SUFFIX) == Named(w, MAX_SUFFIX) && Named(w, MAX_SUFFIX).process.Exporting?
    ensures Named(w, MAX_SUFFIX).process.pc.Failing?
  {
    assert FirstFree(w.disk.files, w.process.fax, MAX_SUFFIX).None?;
  }

  lemma OccupiedMovesOn(w: World, suffix: nat)
    requires w.process.Exporting? && 1 <= suffix < MAX_SUFFIX && Target(w.process.fax, suffix) in w.disk.files
    requires Staging(w.process.id, w.process.fax) in w.disk.files
    ensures Tried(w, suffix) == AfterOccupied(w, suffix)
    ensures Named(AfterOccupied(w, suffix), suffix + 1) == Named(w, suffix)
  {
    LaterNames(w, suffix);
  }

  lemma {:induction false} NamingEnds(w: World, suffix: nat, image: Input, name: string)
    requires w.process.Exporting? && w.process.pc == Announce(suffix) && 1 <= suffix <= MAX_SUFFIX
    requires Staging(w.process.id, w.process.fax) in w.disk.files
    ensures Undisturbed(w, image, name) == Named(w, suffix)
    decreases MAX_SUFFIX - suffix
  {
    NameIsTried(w, suffix, image, name);
    if Target(w.process.fax, suffix) !in w.disk.files {
      FreeNameIsRecorded(w, suffix);
      Recording(Tried(w, suffix), Target(w.process.fax, suffix), image, name);
    } else if suffix < MAX_SUFFIX {
      OccupiedMovesOn(w, suffix);
      NamingEnds(AfterOccupied(w, suffix), suffix + 1, image, name);
    } else {
      LastNameFails(w);
    }
  }

  /** An occupied name that was announced changes nothing about the ones after it. */
  lemma LaterNames(w: World, suffix: nat)
    requires w.process.Exporting? && 1 <= suffix < MAX_SUFFIX
    requires Target(w.process.fax, suffix) in w.disk.files && Staging(w.process.id, w.process.fax) in w.disk.files
    ensures Named(AfterOccupied(w, suffix), suffix + 1) == Named(w, suffix)
  {
    FreeAfterOccupied(w.disk.files, w.process.fax, Announced(w, suffix), suffix);
    var free := FirstFree(w.disk.files, w.process.fax, suffix);
    if free.Some? {
      SameName(w, suffix, free.value);
    } else {
      SameFailure(w, suffix);
    }
  }

  lemma FreeAfterOccupied(files: map<Path, Content>, fax: Fax, announced: Fax, suffix: nat)
    requires fax.folder == announced.folder && fax.stem == announced.stem
    requires suffix < MAX_SUFFIX && Target(fax, suffix) in files
    ensures FirstFree(files, announced, suffix + 1) == FirstFree(files, fax, suffix)
  {
    var taken, next := (s: nat) => Target(fax, s) in files, (s: nat) => Target(announced, s) in files;
    forall s: nat ensures taken(s) == next(s) {
      Theorems.SameTargets(announced, fax);
    }
    FirstAgrees(taken, next, suffix + 1);
  }

  lemma SameName(w: World, suffix: nat, n: nat)
    requires w.process.Exporting? && Staging(w.process.id, w.process.fax) in w.disk.files
    ensures NamedAt(AfterOccupied(w, suffix), n) == NamedAt(w, n)
  {
    assert AfterOccupied(w, suffix).disk.files == w.disk.files;
  }

  lemma SameFailure(w: World, suffix: nat)
    requires w.process.Exporting?
    ensures Nameless(AfterOccupied(w, suffix)) == Nameless(w)
  {
    Theorems.SameTargets(Announced(w, suffix), w.process.fax);
  }

  /** A staging copy that is there already is used. */
  lemma CopyIsThere(w: World, image: Input, name: string)
    requires w.process.Exporting? && w.process.pc == Prepare && w.process.fax.folder.Some? && ValidStem(w.process.fax.stem)
    requires SameContent(w.disk, w.process.id, Staging(w.process.id, w.process.fax))
    ensures Undisturbed(w, image, name) == Undisturbed(At(w, w.process.fax, Announce(1)), image, name)
  {
    var next := Onward(w, image, name);
  }

  lemma CopyBegins(w: World, image: Input, name: string)
    requires w.process.Exporting? && w.process.pc == Prepare
    requires var Exporting(id, fax, _) := w.process;
      fax.folder.Some? && ValidStem(fax.stem) && Staging(id, fax) !in w.disk.files && TempPath(fax, name) !in w.disk.files
    ensures var Exporting(id, fax, _) := w.process; var temp := TempPath(fax, name);
      Undisturbed(w, image, name) == Undisturbed(At(Put(w, temp, Unfinished), fax, Copy(temp)), image, name)
  {
    var next := Onward(w, image, name);
  }

  /** A temporary copy is filled and given its staging name. */
  lemma CopyIsFilled(w: World, temp: Path)
    requires w.process.Exporting? && w.process.pc == Copy(temp) && SpoolOf(w.disk, w.process.id).pdf.Some?
    requires Staging(w.process.id, w.process.fax) !in w.disk.files && temp != Staging(w.process.id, w.process.fax)
    ensures var filled := Proceeded(w, Go);
      && filled.process.Exporting? && filled.process.pc == Stage(temp)
      && Proceeded(filled, Go) == WithCopy(Remove(w, temp))
  {
    assert Proceeded(w, Go).disk.files - {temp} == w.disk.files - {temp};
  }

  lemma CopyIsNamed(w: World, temp: Path, image: Input, name: string)
    requires w.process.Exporting? && w.process.pc == Copy(temp) && SpoolOf(w.disk, w.process.id).pdf.Some?
    requires Staging(w.process.id, w.process.fax) !in w.disk.files && temp != Staging(w.process.id, w.process.fax)
    ensures Undisturbed(w, image, name) == Undisturbed(WithCopy(Remove(w, temp)), image, name)
  {
    CopyIsFilled(w, temp);
    var filled := Onward(w, image, name);
    var named := Onward(filled, image, name);
  }

  /** Nothing is left of the temporary name. */
  lemma CopyIsClean(w: World, temp: Path)
    requires w.process.Exporting? && SpoolOf(w.disk, w.process.id).pdf.Some? && temp !in w.disk.files
    ensures WithCopy(Remove(At(Put(w, temp, Unfinished), w.process.fax, Copy(temp)), temp)) == WithCopy(w)
  {
    assert Put(w, temp, Unfinished).disk.files - {temp} == w.disk.files;
  }

  lemma CopyIsMade(w: World, image: Input, name: string)
    requires w.process.Exporting? && w.process.pc == Prepare && SpoolOf(w.disk, w.process.id).pdf.Some?
    requires var Exporting(id, fax, _) := w.process;
      fax.folder.Some? && ValidStem(fax.stem) && Staging(id, fax) !in w.disk.files && TempPath(fax, name) !in w.disk.files
    ensures Undisturbed(w, image, name) == Undisturbed(WithCopy(w), image, name)
  {
    var temp := TempPath(w.process.fax, name);
    CopyBegins(w, image, name);
    CopyIsNamed(At(Put(w, temp, Unfinished), w.process.fax, Copy(temp)), temp, image, name);
    CopyIsClean(w, temp);
  }

  lemma PlacingFails(w: World, image: Input, name: string)
    requires w.process.Exporting? && w.process.pc == Prepare && SpoolOf(w.disk, w.process.id).pdf.Some?
    requires !Stageable(w.disk.files, w.process.id, w.process.fax, SpoolOf(w.disk, w.process.id).pdf.value, name)
    ensures Undisturbed(w, image, name) == At(w, w.process.fax, Failing)
  {
    var next := Onward(w, image, name);
  }

  lemma PlacingEnds(w: World, image: Input, name: string)
    requires w.process.Exporting? && w.process.pc == Prepare && SpoolOf(w.disk, w.process.id).pdf.Some?
    ensures Undisturbed(w, image, name) == Placed(w, name)
  {
    var Exporting(id, fax, _) := w.process;
    var pdf := SpoolOf(w.disk, id).pdf.value;
    if !Stageable(w.disk.files, id, fax, pdf, name) {
      PlacingFails(w, image, name);
    } else {
      if Staging(id, fax) in w.disk.files {
        CopyIsThere(w, image, name);
        assert w.disk.files[Staging(id, fax) := pdf] == w.disk.files;
      } else {
        CopyIsMade(w, image, name);
      }
      NamingEnds(WithCopy(w), 1, image, name);
    }
  }

  lemma DrawingEnds(w: World, image: Input, name: string)
    requires w.process.Exporting? && w.process.pc == Render
    ensures Undisturbed(w, image, name) == Drawn(w, image, name)
  {
    var next := Onward(w, image, name);
    if image.Nothing? {
      var done := Onward(next, image, name);
    } else if Usable(image) {
      var reported := Onward(next, image, name);
      var ready := Onward(reported, image, name);
      PlacingEnds(ready, image, name);
      assert ready.disk == WithPdf(w, image).disk;
    }
  }

  /** Checking a reception with something to publish finds what is left to do. */
  lemma CheckLeadsOn(w: World, image: Input, name: string) returns (next: World)
    requires w.process.Exporting? && w.process.pc == Check && Exportable(w.process.fax)
    ensures next == Checked(w) && next.process.Exporting?
    ensures next.process.fax == WithReport(w.process.fax, SpoolOf(w.disk, w.process.id))
    ensures match next.process.pc
      case SyncRecovered(path) => path == w.process.fax.status.destination && Exported(w, image, name) == Recorded(next, path)
      case Render => Exported(w, image, name) == Drawn(next, image, name)
      case Prepare => SpoolOf(w.disk, w.process.id).pdf.Some? && Exported(w, image, name) == Placed(next, name)
      case _ => false
  {
    next := Checked(w);
    var Exporting(id, loaded, _) := w.process;
    if !Linked(w.disk, id, loaded) {
      if SpoolOf(w.disk, id).pdf.None? {
        SameDrawing(next, Check, image, name);
      } else {
        SamePlacing(next, Check, name);
      }
    }
  }

  lemma SameDrawing(w: World, pc: Pc, image: Input, name: string)
    requires w.process.Exporting?
    ensures Drawn(At(w, w.process.fax, pc), image, name) == Drawn(w, image, name)
  {
  }

  lemma SamePlacing(w: World, pc: Pc, name: string)
    requires w.process.Exporting? && SpoolOf(w.disk, w.process.id).pdf.Some?
    ensures Placed(At(w, w.process.fax, pc), name) == Placed(w, name)
  {
  }

  /** An export that nothing disturbs ends exactly as stated, whatever was left by earlier
      ones: done, or with a failure to be recorded. */
  lemma ExportEnds(w: World, id: Id, image: Input, name: string)
    requires w.process.Idle? && id in w.disk.records
    ensures Undisturbed(Step(w, Start(id)), image, name) == Exported(Step(w, Start(id)), image, name)
  {
    var loaded := Step(w, Start(id));
    var next := Onward(loaded, image, name);
    if Exportable(w.disk.records[id]) {
      var found := CheckLeadsOn(loaded, image, name);
      match found.process.pc
      case SyncRecovered(path) => Recording(found, path, image, name);
      case Render => DrawingEnds(found, image, name);
      case Prepare => PlacingEnds(found, image, name);
    }
  }

  // ------------------------------------------------------- what that means

  /** Some name is left for the fax. */
  predicate NameIsLeft(files: map<Path, Content>, fax: Fax) {
    exists s: nat :: 1 <= s <= MAX_SUFFIX && Target(fax, s) !in files
  }

  /** What keeps a PDF from being published. */
  predicate Obstructed(d: Disk, id: Id, fax: Fax, pdf: Content, name: string) {
    || fax.folder.None? || !ValidStem(fax.stem)
    || (Staging(id, fax) in d.files && d.files[Staging(id, fax)] != pdf)
    || (Staging(id, fax) !in d.files && TempPath(fax, name) in d.files)
    || !NameIsLeft(d.files, fax)
  }

  /** What makes an export fail that nothing disturbs. */
  predicate Hopeless(d: Disk, id: Id, fax: Fax, image: Input, name: string) {
    || fax.outcome.Receiving?
    || (&& !Finished(fax) && !Linked(d, id, fax)
        && match SpoolOf(d, id).pdf
           case Some(pdf) => Obstructed(d, id, fax, pdf, name)
           case None => !image.Nothing? && (!Usable(image) || Obstructed(d, id, fax, Pdf(id, image.pages, image.outcome, image.bytes), name)))
  }

  lemma StagingIsNoTarget(id: Id, fax: Fax)
    requires fax.folder.Some? && ValidStem(fax.stem)
    ensures forall s: nat :: Target(fax, s) != Staging(id, fax)
  {
  }

  lemma NameIsFound(files: map<Path, Content>, fax: Fax, id: Id, pdf: Content)
    requires fax.folder.Some? && ValidStem(fax.stem)
    ensures NameIsLeft(files, fax) <==> FirstFree(files[Staging(id, fax) := pdf], fax, 1).Some?
  {
    StagingIsNoTarget(id, fax);
    var taken := (s: nat) => Target(fax, s) in files[Staging(id, fax) := pdf];
    FirstIsFree(taken, 1);
    if First(taken, 1).None? {
      forall s: nat | 1 <= s <= MAX_SUFFIX ensures Target(fax, s) in files {
        assert taken(s);
      }
    }
  }

  lemma PlacedFailsIff(w: World, name: string)
    requires w.process.Exporting? && SpoolOf(w.disk, w.process.id).pdf.Some?
    ensures var Exporting(id, fax, _) := w.process;
      Placed(w, name).process.Exporting? <==> Obstructed(w.disk, id, fax, SpoolOf(w.disk, id).pdf.value, name)
  {
    var Exporting(id, fax, _) := w.process;
    if fax.folder.Some? && ValidStem(fax.stem) {
      NameIsFound(w.disk.files, fax, id, SpoolOf(w.disk, id).pdf.value);
    }
  }

  lemma SameObstacles(d: Disk, e: Disk, id: Id, a: Fax, b: Fax, pdf: Content, name: string)
    requires d.files == e.files && a.folder == b.folder && a.stem == b.stem
    ensures Obstructed(d, id, a, pdf, name) == Obstructed(e, id, b, pdf, name)
  {
    Theorems.SameTargets(a, b);
  }

  /** An undisturbed export fails exactly while the reception is under way, or when the
      pages cannot be drawn, or the folder or name is missing, or a file is in the way. */
  lemma UndisturbedFailsIff(w: World, id: Id, image: Input, name: string)
    requires w.process.Idle? && id in w.disk.records
    ensures Undisturbed(Step(w, Start(id)), image, name).process.Exporting? <==> Hopeless(w.disk, id, w.disk.records[id], image, name)
  {
    ExportEnds(w, id, image, name);
    var loaded := Step(w, Start(id));
    var fax := WithReport(w.disk.records[id], SpoolOf(w.disk, id));
    if SpoolOf(w.disk, id).pdf.Some? {
      var ready := At(loaded, fax, Check);
      PlacedFailsIff(ready, name);
      SameObstacles(ready.disk, w.disk, id, fax, w.disk.records[id], SpoolOf(w.disk, id).pdf.value, name);
    } else if Usable(image) {
      var ready := WithPdf(At(loaded, fax, Check), image);
      PlacedFailsIff(ready, name);
      SameObstacles(ready.disk, w.disk, id, ready.process.fax, w.disk.records[id], Pdf(id, image.pages, image.outcome, image.bytes), name);
    }
  }

  /** `n` is the first suffix whose name no file has. */
  ghost predicate IsFirstFree(files: map<Path, Content>, fax: Fax, n: nat) {
    && 1 <= n <= MAX_SUFFIX && Target(fax, n) !in files
    && forall s: nat :: 1 <= s < n ==> Target(fax, s) in files
  }

  lemma FirstFreeIsFound(files: map<Path, Content>, fax: Fax, a: Fax, id: Id, pdf: Content, n: nat)
    requires fax.folder.Some? && ValidStem(fax.stem) && IsFirstFree(files, fax, n)
    requires a.folder == fax.folder && a.stem == fax.stem
    ensures FirstFree(files[Staging(id, fax) := pdf], a, 1) == Some(n)
  {
    StagingIsNoTarget(id, fax);
    Theorems.SameTargets(a, fax);
    var taken := (s: nat) => Target(a, s) in files[Staging(id, fax) := pdf];
    FirstIs(taken, 1, n);
  }

  /** A PDF that can be staged is published under the first free name; its staging copy
      goes, and no other file changes. */
  lemma PlacedUnder(w: World, name: string, loaded: Fax, n: nat)
    requires w.process.Exporting? && SpoolOf(w.disk, w.process.id).pdf.Some?
    requires w.process.fax.folder == loaded.folder && w.process.fax.stem == loaded.stem
    requires Stageable(w.disk.files, w.process.id, loaded, SpoolOf(w.disk, w.process.id).pdf.value, name)
    requires IsFirstFree(w.disk.files, loaded, n)
    ensures var Exporting(id, fax, _) := w.process; var target := Target(loaded, n);
      Placed(w, name) ==
        World(Disk(w.disk.records[id := fax.(status := Published(target))], w.disk.spools,
                   w.disk.files[target := SpoolOf(w.disk, id).pdf.value] - {Staging(id, loaded)}),
              Idle, w.linked + {(id, target)}, w.stumbled)
  {
    var Exporting(id, fax, _) := w.process;
    var pdf := SpoolOf(w.disk, id).pdf.value;
    FirstFreeIsFound(w.disk.files, loaded, fax, id, pdf, n);
    StagingIsNoTarget(id, loaded);
    assert w.disk.files[Staging(id, loaded) := pdf][Target(loaded, n) := pdf] - {Staging(id, loaded)}
        == w.disk.files[Target(loaded, n) := pdf] - {Staging(id, loaded)};
  }

  /** The reception's PDF is published by the first export that nothing disturbs, under
      the first free name. */
  lemma PdfIsPublished(w: World, id: Id, image: Input, name: string, n: nat) returns (after: World)
    requires w.process.Idle? && id in w.disk.records && SpoolOf(w.disk, id).pdf.Some?
    requires Exportable(w.disk.records[id]) && !Linked(w.disk, id, w.disk.records[id])
    requires Stageable(w.disk.files, id, w.disk.records[id], SpoolOf(w.disk, id).pdf.value, name)
    requires IsFirstFree(w.disk.files, w.disk.records[id], n)
    ensures after == Undisturbed(Step(w, Start(id)), image, name) && after.process.Idle?
    ensures var fax, spool := w.disk.records[id], SpoolOf(w.disk, id); var target := Target(fax, n);
      && after.disk.records == w.disk.records[id := WithReport(fax, spool).(status := Published(target))]
      && after.disk.files == w.disk.files[target := spool.pdf.value] - {Staging(id, fax)}
      && after.disk.spools == w.disk.spools && after.linked == w.linked + {(id, target)} && after.stumbled == w.stumbled
  {
    ExportEnds(w, id, image, name);
    var fax := WithReport(w.disk.records[id], SpoolOf(w.disk, id));
    var ready := At(Step(w, Start(id)), fax, Check);
    PlacedUnder(ready, name, w.disk.records[id], n);
    after := Placed(ready, name);
  }

  /** With no PDF yet, the pages are drawn, described and published in one go. */
  lemma PagesArePublished(w: World, id: Id, image: Input, name: string, n: nat) returns (after: World)
    requires w.process.Idle? && id in w.disk.records && SpoolOf(w.disk, id).pdf.None?
    requires Exportable(w.disk.records[id]) && Usable(image)
    requires Stageable(w.disk.files, id, w.disk.records[id], Pdf(id, image.pages, image.outcome, image.bytes), name)
    requires IsFirstFree(w.disk.files, w.disk.records[id], n)
    ensures after == Undisturbed(Step(w, Start(id)), image, name) && after.process.Idle?
    ensures var fax, pdf := w.disk.records[id], Pdf(id, image.pages, image.outcome, image.bytes); var target := Target(fax, n);
      && after.disk.records == w.disk.records[id := fax.(pages := image.pages, outcome := image.outcome, status := Published(target))]
      && after.disk.files == w.disk.files[target := pdf] - {Staging(id, fax)}
      && after.disk.spools == w.disk.spools[id := Spool(Some(Report(image.pages, image.outcome)), Some(pdf))]
      && after.linked == w.linked + {(id, target)} && after.stumbled == w.stumbled
  {
    ExportEnds(w, id, image, name);
    var ready := WithPdf(Step(w, Start(id)), image);
    PlacedUnder(ready, name, w.disk.records[id], n);
    after := Placed(ready, name);
  }

  /** A reception without pages is recorded as that, once and for all. */
  lemma EmptyReceptionIsRecorded(w: World, id: Id, name: string) returns (after: World)
    requires w.process.Idle? && id in w.disk.records && SpoolOf(w.disk, id).pdf.None? && Exportable(w.disk.records[id])
    ensures after == Undisturbed(Step(w, Start(id)), Nothing, name)
    ensures after == w.(disk := w.disk.(records := w.disk.records[id := w.disk.records[id].(status := NoContent)]))
  {
    ExportEnds(w, id, Nothing, name);
    after := Exported(Step(w, Start(id)), Nothing, name);
  }

  /** A failure that can be recorded is: an announced name stays announced and is marked,
      anything else has failed; what is left of a temporary file goes. */
  lemma FailureIsRecorded(w: World) returns (after: World)
    requires w.process.Exporting? && !w.process.pc.Cleanup? && !(w.process.pc.Check? && Finished(w.process.fax))
    ensures after == Step(w, Fault(true)) && after.process.Idle?
    ensures var Exporting(id, fax, pc) := w.process;
      && after.disk.spools == w.disk.spools && after.linked == w.linked
      && after.disk.records == w.disk.records[id := match fax.status
           case Publishing(destination, staging, _) => fax.(status := Publishing(destination, staging, true))
           case _ => fax.(status := Failed)]
      && after.disk.files == match pc
           case Copy(temp) => w.disk.files - {temp}
           case Stage(temp) => w.disk.files - {temp}
           case _ => w.disk.files
  {
    after := Faulted(w, true);
  }
}
