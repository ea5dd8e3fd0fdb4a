/** The artifact sweep of the state directory, file by file. */
module ArtifactSweep {
  import opened Wrappers
  import opened SessionStates
  import ArtifactGc

  type Id = ArtifactGc.Id

  datatype Kind = BundleFile | TmpIndex | DivergenceIndex | PatchFile | ApplyPreview | ApplyPreviewAnsi

  datatype Artifact = Artifact(kind: Kind, session: Id)

  /** `removable` is false for an entry that is not a regular file or cannot be unlinked. */
  datatype File = File(size: nat, mtime: int, removable: bool)

  type Files = map<Artifact, File>

  const KINDS: seq<Kind> := [BundleFile, TmpIndex, DivergenceIndex, PatchFile, ApplyPreview, ApplyPreviewAnsi]

  // ------------------------------------------------------------------
  // What one sweep removes
  // ------------------------------------------------------------------

  datatype Pass = Pass(records: map<Id, ArtifactGc.Record>, durable: set<Id>, now: int, grace: nat)

  /** The decision of the first pass on a session with a record. */
  predicate Cleared(p: Pass, files: Files, s: Id) {
    s in p.records
    && Terminal(p.records[s].state) && p.now - p.records[s].updatedAt > p.grace
    && ArtifactGc.Removes(p.records[s], s in p.durable, Artifact(BundleFile, s) in files)
  }

  /** The decision of the second pass on a file without a record; a snapshot's temporary index is not listed. */
  predicate Orphaned(p: Pass, files: Files, a: Artifact)
    requires a in files
  {
    a.session !in p.records && a.kind != TmpIndex && p.now - files[a].mtime > p.grace
  }

  predicate Goes(p: Pass, files: Files, a: Artifact)
    requires a in files
  {
    files[a].removable && (Cleared(p, files, a.session) || Orphaned(p, files, a))
  }

  function Swept(p: Pass, files: Files): Files { map a | a in files && !Goes(p, files, a) :: files[a] }

  /** A second sweep under the same circumstances finds nothing more. */
  lemma SweepIsIdempotent(p: Pass, files: Files)
    ensures Swept(p, Swept(p, files)) == Swept(p, files)
  {
    var once := Swept(p, files);
    forall a | a in once ensures !Goes(p, once, a) {
      var bundle := Artifact(BundleFile, a.session);
      if Cleared(p, files, a.session) {
        assert !files[a].removable;
      } else {
        assert a.session in p.records ==> (bundle in once <==> bundle in files);
      }
    }
  }

  /** The visit of one record in the interleaved model, when nothing happens between its awaits. */
  function Visit(w: ArtifactGc.World, grace: nat, k: nat, s: Id, g: nat, answer: bool, unlink: bool): ArtifactGc.World {
    var looked := ArtifactGc.CollectStep(grace, w, ArtifactGc.SweepLook(k, s, g, unlink));
    if g in looked.checks
    then ArtifactGc.CollectStep(grace, ArtifactGc.CollectStep(grace, looked, ArtifactGc.Probe(g, answer)), ArtifactGc.Remove(g, unlink))
    else looked
  }

  /** For a bundle file, an uninterrupted visit of the interleaved model decides as the sweep does. */
  lemma SweepIsTheStep(p: Pass, files: Files, w: ArtifactGc.World, k: nat, s: Id, g: nat, answer: bool)
    requires s in p.records && Artifact(BundleFile, s) in files && s in w.bundles
    requires k in w.sweeps && s in w.sweeps[k].todo && g !in w.checks
    requires w.sweeps[k].known == p.records && w.sweeps[k].startedAt == p.now
    requires s in p.durable <==> answer && s in w.refs
    ensures var v := Visit(w, p.grace, k, s, g, answer, files[Artifact(BundleFile, s)].removable);
            s in v.bundles <==> Artifact(BundleFile, s) in Swept(p, files)
  {
    var r, unlink := p.records[s], files[Artifact(BundleFile, s)].removable;
    if Terminal(r.state) && p.now - r.updatedAt > p.grace {
      VisitDecides(w, p.grace, k, s, g, answer, unlink, r);
    } else {
      VisitSpares(w, p.grace, k, s, g, answer, unlink);
    }
  }

  lemma VisitSpares(w: ArtifactGc.World, grace: nat, k: nat, s: Id, g: nat, answer: bool, unlink: bool)
    requires s in w.bundles && k in w.sweeps && s in w.sweeps[k].todo && g !in w.checks && s in w.sweeps[k].known
    requires !(Terminal(w.sweeps[k].known[s].state) && w.sweeps[k].startedAt - w.sweeps[k].known[s].updatedAt > grace)
    ensures s in Visit(w, grace, k, s, g, answer, unlink).bundles
  {
  }

  /** An expired terminal record's file goes by the whole decision. */
  lemma VisitDecides(w: ArtifactGc.World, grace: nat, k: nat, s: Id, g: nat, answer: bool, unlink: bool, r: ArtifactGc.Record)
    requires s in w.bundles && k in w.sweeps && s in w.sweeps[k].todo && g !in w.checks
    requires s in w.sweeps[k].known && w.sweeps[k].known[s] == r
    requires Terminal(r.state) && w.sweeps[k].startedAt - r.updatedAt > grace
    ensures s in Visit(w, grace, k, s, g, answer, unlink).bundles <==> !(unlink && ArtifactGc.Removes(r, answer && s in w.refs, true))
  {
    var looked := ArtifactGc.CollectStep(grace, w, ArtifactGc.SweepLook(k, s, g, unlink));
    if ArtifactGc.RemovalNeedsDurableRef(r, true) {
      ArtifactGc.ProbeDecides(r, answer && s in w.refs, true);
      assert looked.checks == w.checks[g := ArtifactGc.Check(s, None)];
      ProbedRemoval(looked, grace, g, s, answer, unlink);
    }
  }

  lemma ProbedRemoval(w: ArtifactGc.World, grace: nat, g: nat, s: Id, answer: bool, unlink: bool)
    requires s in w.bundles && g in w.checks && w.checks[g] == ArtifactGc.Check(s, None)
    ensures var v := ArtifactGc.CollectStep(grace, ArtifactGc.CollectStep(grace, w, ArtifactGc.Probe(g, answer)), ArtifactGc.Remove(g, unlink));
            s in v.bundles <==> !(unlink && answer && s in w.refs)
  {
    var v := ArtifactGc.CollectStep(grace, w, ArtifactGc.Probe(g, answer));
    assert v == w.(checks := w.checks[g := ArtifactGc.Check(s, Some(answer && s in w.refs))]);
  }

  // ------------------------------------------------------------------
  // Bytes
  // ------------------------------------------------------------------

  ghost function Total(files: Files): nat {
    if files == map[] then 0
    else
      var a :| a in files;
      files[a].size + Total(files - {a})
  }

  lemma {:induction false} TotalWithout(files: Files, a: Artifact)
    requires a in files
    ensures Total(files) == files[a].size + Total(files - {a})
    decreases |files|
  {
    var b :| b in files && Total(files) == files[b].size + Total(files - {b});
    if a != b {
      TotalWithout(files - {b}, a);
      TotalWithout(files - {a}, b);
      assert files - {a} - {b} == files - {b} - {a};
    }
  }

  lemma SizeWithout(files: Files, a: Artifact)
    requires a in files
    ensures |files - {a}| == |files| - 1
  {
    assert (files - {a}).Keys == files.Keys - {a};
  }

  /** What a removal loop may claim after turning `before` into `after`. */
  ghost predicate Accounted(before: Files, after: Files, removed: nat, bytes: nat) {
    removed + |after| == |before| && bytes + Total(after) == Total(before)
  }

  // ------------------------------------------------------------------
  // The two passes
  // ------------------------------------------------------------------

  function WithoutSession(files: Files, s: Id): Files { map a | a in files && !(a.session == s && files[a].removable) :: files[a] }

  /** The files after the first pass but for the sessions still to visit. */
  function AfterRecords(p: Pass, start: Files, todo: set<Id>): Files {
    map a | a in start && !(start[a].removable && a.session !in todo && Cleared(p, start, a.session)) :: start[a]
  }

  /** The files after the first pass and the second but for the candidates still to visit. */
  function AfterOrphans(p: Pass, start: Files, candidates: set<Artifact>): Files {
    map a | a in start && !(start[a].removable && Cleared(p, start, a.session))
            && !(start[a].removable && a !in candidates && Orphaned(p, start, a)) :: start[a]
  }

  lemma RecordVisited(p: Pass, start: Files, todo: set<Id>, s: Id)
    requires s in todo
    ensures var before := AfterRecords(p, start, todo);
            && (Artifact(BundleFile, s) in before <==> Artifact(BundleFile, s) in start)
            && AfterRecords(p, start, todo - {s}) == if Cleared(p, start, s) then WithoutSession(before, s) else before
  {
  }

  /** What the listing of the second pass has found. */
  predicate Listed(files: Files, candidates: set<Artifact>) { candidates <= files.Keys && forall a <- candidates :: a.kind != TmpIndex }

  lemma CandidateVisited(p: Pass, start: Files, candidates: set<Artifact>, a: Artifact, before: Files)
    requires a in candidates && before == AfterOrphans(p, start, candidates) && Listed(before, candidates)
    ensures var left := candidates - {a};
            && AfterOrphans(p, start, left) == (if before[a].removable && Orphaned(p, before, a) then before - {a} else before)
            && Listed(AfterOrphans(p, start, left), left)
  {
  }

  lemma PassesMeet(p: Pass, start: Files, listed: set<Artifact>)
    requires listed == set a | a in AfterRecords(p, start, {}) && a.kind != TmpIndex
    ensures AfterOrphans(p, start, listed) == AfterRecords(p, start, {}) && Listed(AfterRecords(p, start, {}), listed)
  {
  }

  lemma BothPasses(p: Pass, start: Files)
    ensures AfterOrphans(p, start, {}) == Swept(p, start)
  {
  }

  class StateDirectory {
    var records: map<Id, ArtifactGc.Record>
    var files: Files

    /** One file; a missing or stuck one is left alone. */
    method RemoveArtifact(a: Artifact) returns (removed: nat, bytes: nat)
      modifies this`files
      ensures files == if a in old(files) && old(files)[a].removable then old(files) - {a} else old(files)
      ensures Accounted(old(files), files, removed, bytes)
    {
      removed, bytes := 0, 0;
      if a in files && files[a].removable {
        TotalWithout(files, a);
        SizeWithout(files, a);
        removed, bytes := 1, files[a].size;
        files := files - {a};
      }
    }

    /** The six artifacts of a session. */
    method RemoveSessionArtifacts(s: Id) returns (removed: nat, bytes: nat)
      modifies this`files
      ensures files == WithoutSession(old(files), s)
      ensures Accounted(old(files), files, removed, bytes)
    {
      removed, bytes := 0, 0;
      for i := 0 to |KINDS|
        invariant files == map a | a in old(files) && !(a.session == s && old(files)[a].removable && a.kind in KINDS[..i]) :: old(files)[a]
        invariant Accounted(old(files), files, removed, bytes)
      {
        var r, b := RemoveArtifact(Artifact(KINDS[i], s));
        removed, bytes := removed + r, bytes + b;
        assert KINDS[..i + 1] == KINDS[..i] + [KINDS[i]];
      }
      AllKinds();
      assert KINDS[..|KINDS|] == KINDS;
    }

    /**
     * Terminal records first, then orphans; `durable` is the set of sessions
     * whose ref probe succeeds. Counts exactly what it removes.
     */
    method SweepStateArtifacts(durable: set<Id>, now: int, grace: nat) returns (removed: nat, bytesFreed: nat)
      modifies this`files
      ensures files == Swept(Pass(records, durable, now, grace), old(files))
      ensures Accounted(old(files), files, removed, bytesFreed)
    {
      ghost var p, start := Pass(records, durable, now, grace), files;
      removed, bytesFreed := 0, 0;
      var todo := records.Keys;
      while todo != {}
        invariant todo <= records.Keys
        invariant files == AfterRecords(p, start, todo)
        invariant Accounted(start, files, removed, bytesFreed)
        decreases todo
      {
        var s :| s in todo;
        RecordVisited(p, start, todo, s);
        var r := records[s];
        if Terminal(r.state) && now - r.updatedAt > grace
           && ArtifactGc.Removes(r, s in durable, Artifact(BundleFile, s) in files)
        {
          var n, b := RemoveSessionArtifacts(s);
          removed, bytesFreed := removed + n, bytesFreed + b;
        }
        todo := todo - {s};
      }
      removed, bytesFreed := SweepOrphans(removed, bytesFreed, start, now, grace, p);
    }

    method SweepOrphans(countedFiles: nat, countedBytes: nat, ghost start: Files, now: int, grace: nat, ghost p: Pass)
      returns (removed: nat, bytesFreed: nat)
      requires p.records == records && p.now == now && p.grace == grace
      requires files == AfterRecords(p, start, {})
      requires Accounted(start, files, countedFiles, countedBytes)
      modifies this`files
      ensures files == Swept(p, start)
      ensures Accounted(start, files, removed, bytesFreed)
    {
      removed, bytesFreed := countedFiles, countedBytes;
      var candidates := set a | a in files && a.kind != TmpIndex;
      PassesMeet(p, start, candidates);
      while candidates != {}
        invariant Listed(files, candidates)
        invariant files == AfterOrphans(p, start, candidates)
        invariant Accounted(start, files, removed, bytesFreed)
        decreases candidates
      {
        var a :| a in candidates;
        CandidateVisited(p, start, candidates, a, files);
        if a.session !in records && now - files[a].mtime > grace {
          var n, b := RemoveArtifact(a);
          removed, bytesFreed := removed + n, bytesFreed + b;
        }
        candidates := candidates - {a};
      }
      BothPasses(p, start);
    }
  }

  lemma AllKinds()
    ensures forall k: Kind :: k in KINDS
  {
    forall k: Kind ensures k in KINDS {
      match k
      case BundleFile => assert KINDS[0] == k;
      case TmpIndex => assert KINDS[1] == k;
      case DivergenceIndex => assert KINDS[2] == k;
      case PatchFile => assert KINDS[3] == k;
      case ApplyPreview => assert KINDS[4] == k;
      case ApplyPreviewAnsi => assert KINDS[5] == k;
    }
  }
}
