/** The promises of publication, over every run of deaths, faults, retries and
    interference by other programs. */
module PublicationTheorems {
  import opened Words
  import opened Publication
  import opened PublicationSafety

  /** At most one destination is ever linked for a reception, however often the
      process dies or fails, unless a lost `Published` save is overwritten by a
      recorded failure. */
  lemma AtMostOneDestination(start: World, actions: seq<Action>, after: World, id: Id, p: Path, q: Path)
    requires Fresh(start) && Runs(start, actions, after)
    requires (id, p) in after.linked && (id, q) in after.linked && id !in after.stumbled
    ensures p == q
  {
    FreshInv(start);
    RunKeepsInv(start, actions, after);
    assert StatusInv(after, id, after.disk.records[id]);
  }

  /** A reception recorded as published has exactly its internal PDF at that path,
      and the journal describes that PDF. */
  lemma PublishedIsTruthful(start: World, actions: seq<Action>, after: World, id: Id, p: Path)
    requires Fresh(start) && Runs(start, actions, after)
    requires id in after.disk.records && after.disk.records[id].status == Published(p)
    ensures p in after.disk.files && after.disk.files[p].Pdf? && after.disk.files[p].id == id
    ensures SpoolOf(after.disk, id).pdf == Some(after.disk.files[p])
    ensures after.disk.records[id].pages == after.disk.files[p].pages
    ensures after.disk.records[id].outcome == after.disk.files[p].outcome
    ensures (id, p) in after.linked
  {
    FreshInv(start);
    RunKeepsInv(start, actions, after);
    assert StatusInv(after, id, after.disk.records[id]) && SpoolInv(id, SpoolOf(after.disk, id));
  }

  /** The report next to the internal PDF always describes that PDF, because it is
      written first. */
  lemma ReportDescribesPdf(start: World, actions: seq<Action>, after: World, id: Id)
    requires Fresh(start) && Runs(start, actions, after)
    requires SpoolOf(after.disk, id).pdf.Some?
    ensures var spool := SpoolOf(after.disk, id);
      spool.pdf.value.Pdf? && spool.pdf.value.id == id
      && spool.report == Some(Report(spool.pdf.value.pages, spool.pdf.value.outcome))
  {
    FreshInv(start);
    RunKeepsInv(start, actions, after);
    assert id in after.disk.records && SpoolInv(id, SpoolOf(after.disk, id));
  }

  lemma ProceedTouchesOnlyHidden(w: World, input: Input, p: Path)
    requires Inv(w) && w.process.Exporting? && !w.process.pc.Failing?
    requires p in w.disk.files && (!p.Hidden() || !Ours(w.disk.files[p]))
    ensures p in Proceeded(w, input).disk.files && Proceeded(w, input).disk.files[p] == w.disk.files[p]
  {
    if BeforeStaging(w.process.pc) {
      EarlyTouchesOnlyHidden(w, input, p);
    } else {
      InputIsIgnored(w, input);
      LateTouchesOnlyHidden(w, p);
    }
  }

  lemma EarlyTouchesOnlyHidden(w: World, input: Input, p: Path)
    requires Inv(w) && w.process.Exporting? && BeforeStaging(w.process.pc)
    requires p in w.disk.files && (!p.Hidden() || !Ours(w.disk.files[p]))
    ensures p in Proceeded(w, input).disk.files && Proceeded(w, input).disk.files[p] == w.disk.files[p]
  {
    match w.process.pc
    case Prepare => PreparingAddsOnly(w, input, p);
    case Copy(temp) => assert temp != p;
    case Stage(temp) => StagingTouchesOnlyHidden(w, p);
    case _ => OthersLeaveFiles(w, input);
  }

  lemma OthersLeaveFiles(w: World, input: Input)
    requires w.process.Exporting? && BeforeStaging(w.process.pc)
    requires !w.process.pc.Prepare? && !w.process.pc.Copy? && !w.process.pc.Stage?
    ensures Proceeded(w, input).disk.files == w.disk.files
  {
  }

  lemma PreparingAddsOnly(w: World, input: Input, p: Path)
    requires w.process.Exporting? && w.process.pc.Prepare? && p in w.disk.files
    ensures p in Proceeded(w, input).disk.files && Proceeded(w, input).disk.files[p] == w.disk.files[p]
  {
  }

  lemma StagingTouchesOnlyHidden(w: World, p: Path)
    requires Inv(w) && w.process.Exporting? && w.process.pc.Stage?
    requires p in w.disk.files && (!p.Hidden() || !Ours(w.disk.files[p]))
    ensures p in Staged(w, w.process.pc.temp).disk.files && Staged(w, w.process.pc.temp).disk.files[p] == w.disk.files[p]
  {
    assert SpoolInv(w.process.id, SpoolOf(w.disk, w.process.id));
  }

  lemma LateTouchesOnlyHidden(w: World, p: Path)
    requires Inv(w) && w.process.Exporting? && !BeforeStaging(w.process.pc) && !w.process.pc.Failing?
    requires p in w.disk.files && (!p.Hidden() || !Ours(w.disk.files[p]))
    ensures p in Proceeded(w, Go).disk.files && Proceeded(w, Go).disk.files[p] == w.disk.files[p]
  {
    if w.process.pc.Cleanup? {
      assert SpoolInv(w.process.id, SpoolOf(w.disk, w.process.id));
    }
  }

  /** No visible file and no file of another program is ever replaced or deleted. */
  lemma NothingForeignIsTouched(w: World, a: Action, p: Path)
    requires Inv(w) && Enabled(w, a) && !a.Outside?
    requires p in w.disk.files && (!p.Hidden() || !Ours(w.disk.files[p]))
    ensures p in Step(w, a).disk.files && Step(w, a).disk.files[p] == w.disk.files[p]
  {
    match a
    case Proceed(input) => ProceedTouchesOnlyHidden(w, input, p);
    case Fault(saved) => DroppedTouchesOnlyHidden(w, p);
    case _ =>
  }

  lemma DroppedTouchesOnlyHidden(w: World, p: Path)
    requires Inv(w) && w.process.Exporting?
    requires p in w.disk.files && (!p.Hidden() || !Ours(w.disk.files[p]))
    ensures p in Dropped(w).disk.files && Dropped(w).disk.files[p] == w.disk.files[p]
  {
    var Exporting(id, fax, pc) := w.process;
    if pc.Stage? {
      assert SpoolInv(id, SpoolOf(w.disk, id));
    }
  }

  ghost predicate ByThisProgram(actions: seq<Action>) {
    forall a :: a in actions ==> !a.Outside?
  }

  /** Over a whole run of this program, files that were there before survive. */
  lemma {:induction false} ForeignFilesSurvive(w: World, actions: seq<Action>, after: World, p: Path)
    requires Inv(w) && Runs(w, actions, after) && ByThisProgram(actions)
    requires p in w.disk.files && (!p.Hidden() || !Ours(w.disk.files[p]))
    ensures p in after.disk.files && after.disk.files[p] == w.disk.files[p]
    decreases |actions|
  {
    if actions != [] {
      NothingForeignIsTouched(w, actions[0], p);
      StepKeepsInv(w, actions[0]);
      ForeignFilesSurvive(Step(w, actions[0]), actions[1..], after, p);
    }
  }

  /** Exporting a finished reception again changes nothing at all. */
  lemma FinishedExportIsNoOp(w: World, id: Id, input: Input)
    requires w.process.Idle? && id in w.disk.records && Finished(w.disk.records[id])
    ensures Runs(w, [Start(id), Proceed(input)], w)
  {
    var loaded := Step(w, Start(id));
    assert Step(loaded, Proceed(input)) == w;
    assert [Start(id), Proceed(input)][1..] == [Proceed(input)];
    assert [Proceed(input)][1..] == [];
    assert Runs(w, [], w);
    assert Runs(loaded, [Proceed(input)], w);
  }

  lemma RecoverySettles(w: World, path: Path)
    requires w.process.Exporting? && w.process.pc == SyncRecovered(path) && w.process.id in w.disk.records
    ensures var go := Proceed(Go);
      var done := Step(Step(Step(w, go), go), go);
      && Runs(w, [go, go, go], done)
      && done.process.Idle? && done.linked == w.linked
      && done.disk.records == w.disk.records[w.process.id := w.process.fax.(status := Published(path))]
      && Staging(w.process.id, w.process.fax) !in done.disk.files
  {
    var go := Proceed(Go);
    RunsOne(Step(Step(w, go), go), go);
    RunsMore(Step(w, go), go, [go], Step(Step(Step(w, go), go), go));
    RunsMore(w, go, [go, go], Step(Step(Step(w, go), go), go));
  }

  /** After a death between the link and its journal entry, the next export settles
      on the file already linked, links nothing else and removes the staging copy. */
  lemma DeathAfterLinkRecovers(w: World, id: Id, p: Path) returns (after: World)
    requires Inv(w) && w.process.Idle? && (id, p) in w.linked
    requires w.disk.records[id].status.Publishing? && w.disk.records[id].status.destination == p
    requires !w.disk.records[id].outcome.Receiving?
    ensures Runs(w, [Start(id), Proceed(Go), Proceed(Go), Proceed(Go), Proceed(Go)], after)
    ensures after.process.Idle? && after.linked == w.linked
    ensures id in after.disk.records && after.disk.records[id].status == Published(p)
    ensures Staging(id, after.disk.records[id]) !in after.disk.files
  {
    var go := Proceed(Go);
    assert SameContent(w.disk, id, p);
    var loaded := Step(w, Start(id));
    var found := Step(loaded, go);
    RecoverySettles(found, p);
    after := Step(Step(Step(found, go), go), go);
    RunsMore(loaded, go, [go, go, go], after);
    RunsMore(w, Start(id), [go, go, go, go], after);
  }

  lemma RunsOne(w: World, a: Action)
    requires Enabled(w, a)
    ensures Runs(w, [a], Step(w, a))
  {
    assert [a][1..] == [];
  }

  lemma RunsMore(w: World, a: Action, rest: seq<Action>, after: World)
    requires Enabled(w, a) && Runs(Step(w, a), rest, after)
    ensures Runs(w, [a] + rest, after)
  {
    assert ([a] + rest)[1..] == rest;
  }

  // ------------------------------------------------ the exact exception

  /** The export loop walks past occupied names and links the first free one. */
  lemma {:induction false} LinksFirstFree(w: World, suffix: nat, free: nat)
    returns (actions: seq<Action>, after: World)
    requires w.process.Exporting? && w.process.pc == Announce(suffix) && w.process.id in w.disk.records
    requires suffix <= free <= MAX_SUFFIX && w.process.fax.folder.Some?
    requires Staging(w.process.id, w.process.fax) in w.disk.files
    requires Target(w.process.fax, free) !in w.disk.files
    requires forall s :: suffix <= s < free ==> Target(w.process.fax, s) in w.disk.files
    ensures Runs(w, actions, after) && (forall a :: a in actions ==> a.Proceed?)
    ensures after.linked == w.linked + {(w.process.id, Target(w.process.fax, free))}
    decreases free - suffix
  {
    var next := NameIsTried(w, suffix);
    var rest: seq<Action>;
    if suffix == free {
      rest, after := [], next;
    } else {
      SameTargets(next.process.fax, w.process.fax);
      rest, after := LinksFirstFree(next, suffix + 1, free);
    }
    actions := ThreeMore(w, next, rest, after);
  }

  /** Announcing a name and linking it, if it is free. */
  lemma NameIsTried(w: World, suffix: nat) returns (next: World)
    requires w.process.Exporting? && w.process.pc == Announce(suffix) && w.process.id in w.disk.records
    requires Staging(w.process.id, w.process.fax) in w.disk.files && w.process.fax.folder.Some?
    ensures var target := Target(w.process.fax, suffix);
      && Runs(w, [Proceed(Go), Proceed(Go), Proceed(Go)], next)
      && (target !in w.disk.files ==> next.linked == w.linked + {(w.process.id, target)})
      && (target in w.disk.files && suffix < MAX_SUFFIX ==>
        && next.linked == w.linked && next.disk.files == w.disk.files && w.process.id in next.disk.records
        && next.process.Exporting? && next.process.id == w.process.id && next.process.pc == Announce(suffix + 1)
        && next.process.fax.folder == w.process.fax.folder && next.process.fax.stem == w.process.fax.stem)
  {
    var w1 := Step(w, Proceed(Go));
    var w2 := Step(w1, Proceed(Go));
    next := Step(w2, Proceed(Go));
    RunsOne(w2, Proceed(Go));
    RunsMore(w1, Proceed(Go), [Proceed(Go)], next);
    RunsMore(w, Proceed(Go), [Proceed(Go), Proceed(Go)], next);
  }

  lemma ThreeMore(w: World, mid: World, rest: seq<Action>, after: World) returns (actions: seq<Action>)
    requires Runs(w, [Proceed(Go), Proceed(Go), Proceed(Go)], mid) && Runs(mid, rest, after)
    ensures Runs(w, actions, after) && ((forall a :: a in rest ==> a.Proceed?) ==> forall a :: a in actions ==> a.Proceed?)
  {
    RunsAppend(w, [Proceed(Go), Proceed(Go), Proceed(Go)], mid, rest, after);
    actions := [Proceed(Go), Proceed(Go), Proceed(Go)] + rest;
  }

  /** An undisturbed retry of a failed export that had staged its PDF. */
  lemma RetryAnnounces(w: World, id: Id) returns (announced: World)
    requires Inv(w) && w.process.Idle? && id in w.disk.records && w.disk.records[id].status.Failed?
    requires !w.disk.records[id].outcome.Receiving? && w.disk.records[id].folder.Some?
    requires SameContent(w.disk, id, Staging(id, w.disk.records[id]))
    ensures Runs(w, [Start(id), Proceed(Go), Proceed(Go)], announced)
    ensures announced.process.Exporting? && announced.process.id == id && announced.process.pc == Announce(1)
    ensures announced.process.fax.folder == w.disk.records[id].folder && announced.process.fax.stem == w.disk.records[id].stem
    ensures announced.disk == w.disk && announced.linked == w.linked
  {
    var loaded := Step(w, Start(id));
    var prepared := Step(loaded, Proceed(Go));
    announced := Step(prepared, Proceed(Go));
    RunsOne(prepared, Proceed(Go));
    RunsMore(loaded, Proceed(Go), [Proceed(Go)], announced);
    RunsMore(w, Start(id), [Proceed(Go), Proceed(Go)], announced);
  }

  lemma {:induction false} RunsAppend(w: World, first: seq<Action>, mid: World, second: seq<Action>, after: World)
    requires Runs(w, first, mid) && Runs(mid, second, after)
    ensures Runs(w, first + second, after)
    decreases |first|
  {
    if first == [] {
      assert first + second == second;
    } else {
      RunsAppend(Step(w, first[0]), first[1..], mid, second, after);
      assert (first + second)[1..] == first[1..] + second;
    }
  }

  lemma SameTargets(a: Fax, b: Fax)
    requires a.folder == b.folder && a.stem == b.stem
    ensures forall s :: Target(a, s) == Target(b, s)
  {
  }

  /** The exception is real: whenever a lost `Published` save is overwritten by a
      failure, the next undisturbed retry links a second name, as long as the
      folder has a free one. */
  lemma LostPublicationIsRepeated(w: World, free: nat) returns (actions: seq<Action>, after: World, p: Path, q: Path)
    requires Inv(w) && LosesPublished(w) && w.process.fax.folder.Some?
    requires 1 <= free <= MAX_SUFFIX && Target(w.process.fax, free) !in w.disk.files
    requires forall s :: 1 <= s < free ==> Target(w.process.fax, s) in w.disk.files
    ensures Runs(Step(w, Fault(true)), actions, after)
    ensures forall a :: a in actions ==> a.Start? || a.Proceed?
    ensures (w.process.id, p) in after.linked && (w.process.id, q) in after.linked && p != q
  {
    var id, fax := w.process.id, w.process.fax;
    p, q := fax.status.path, Target(fax, free);
    var failed := PublicationIsLost(w);
    var announced := RetryAnnounces(failed, id);
    SameTargets(announced.process.fax, fax);
    actions, after := LinksFirstFree(announced, 1, free);
    RunsAppend(failed, [Start(id), Proceed(Go), Proceed(Go)], announced, actions, after);
    actions := [Start(id), Proceed(Go), Proceed(Go)] + actions;
  }

  /** The failure is recorded, and link and staging copy are still there. */
  lemma PublicationIsLost(w: World) returns (failed: World)
    requires Inv(w) && LosesPublished(w) && w.process.fax.folder.Some?
    ensures failed == Step(w, Fault(true)) && Inv(failed) && failed.process.Idle?
    ensures var id, fax := w.process.id, w.process.fax;
      && failed.disk.files == w.disk.files && failed.linked == w.linked && (id, fax.status.path) in w.linked
      && fax.status.path in w.disk.files
      && id in failed.disk.records && failed.disk.records[id] == fax.(status := Failed) && !fax.outcome.Receiving?
      && SameContent(failed.disk, id, Staging(id, fax))
  {
    StepKeepsInv(w, Fault(true));
    failed := Step(w, Fault(true));
    assert SameContent(w.disk, w.process.id, w.process.fax.status.path);
  }
}
