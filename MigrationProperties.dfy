/**
 * What the bookkeeping of a migration promises, proved about the functions of
 * MigrationSpec: the datatype check, the sharing entries each create call
 * collects, when records are posted, which identifiers are recorded, how the
 * failure counters move, the order of the walk and of the run, and that
 * sharing requests come last.
 */
module MigrationProperties {
  import opened Common
  import opened Strings
  import opened XmlMapper
  import opened MigrationSpec

  // ---------------------------------------------------------------------------
  // check_datatypes_matching

  /** The check fails exactly when a non-`xdat:` source datatype is not createable on the destination, and names all of them. */
  lemma CheckDatatypesExact(source: seq<string>, destination: seq<string>)
    ensures CheckDatatypesMatching(source, destination).Fail? <==>
              (exists n :: n in source && !StartsWith(n, "xdat:") && n !in destination)
    ensures CheckDatatypesMatching(source, destination).Fail? ==>
              CheckDatatypesMatching(source, destination).error
                == MissingDatatypes(set n | n in source && !StartsWith(n, "xdat:") && n !in destination)
  {
    var missing := set n | n in source && !StartsWith(n, "xdat:") && n !in destination;
    assert Enabled(source) - Enabled(destination) == missing;
    if Enabled(source) <= Enabled(destination) {
      forall n | n in source && !StartsWith(n, "xdat:")
        ensures n in destination
      {
        assert n in Enabled(source);
      }
    } else {
      var n :| n in Enabled(source) && n !in Enabled(destination);
      assert n in missing;
    }
  }

  /** `xdat:` datatypes on either side never change the verdict. */
  lemma CheckDatatypesIgnoresXdat(source: seq<string>, destination: seq<string>, n: string)
    requires StartsWith(n, "xdat:")
    ensures CheckDatatypesMatching(source + [n], destination) == CheckDatatypesMatching(source, destination)
    ensures CheckDatatypesMatching(source, destination + [n]) == CheckDatatypesMatching(source, destination)
  {
    assert Enabled(source + [n]) == Enabled(source);
    assert Enabled(destination + [n]) == Enabled(destination);
  }

  // ---------------------------------------------------------------------------
  // Sharing tables

  /** `table.get(key, default)` */
  function EntryOr(t: SharingTable, key: string, default: SharingRecord): SharingRecord {
    match RecordAt(t, key)
    case Some(r) => r
    case None => default
  }

  /**
   * Collecting keeps a table well formed, and keeps insertion order: a new
   * key goes last, an existing key stays where it was.
   */
  lemma CollectKeepsOrder(t: SharingTable, getKey: string, storeKey: string, default: SharingRecord, c: Claim, sourceId: string)
    requires ValidTable(t)
    ensures ValidTable(Collect(t, getKey, storeKey, default, c, sourceId))
    ensures Collect(t, getKey, storeKey, default, c, sourceId).keys == if storeKey in t.keys then t.keys else t.keys + [storeKey]
  {
  }

  /**
   * After collecting, `storeKey` names the entry found under `getKey` (or the
   * default) with the claim applied; `getKey`, when present, names that same
   * changed object; every key naming another object keeps its entry.
   */
  lemma CollectEntry(t: SharingTable, getKey: string, storeKey: string, default: SharingRecord, c: Claim, sourceId: string)
    requires ValidTable(t)
    ensures var r := Collect(t, getKey, storeKey, default, c, sourceId);
            RecordAt(r, storeKey) == Some(ApplyClaim(EntryOr(t, getKey, default), c, sourceId))
            && (getKey in t.refs ==> RecordAt(r, getKey) == Some(ApplyClaim(EntryOr(t, getKey, default), c, sourceId)))
    ensures forall k :: k != storeKey && (k in t.refs && getKey in t.refs ==> t.refs[k] != t.refs[getKey]) ==>
              RecordAt(Collect(t, getKey, storeKey, default, c, sourceId), k) == RecordAt(t, k)
  {
  }

  // ---------------------------------------------------------------------------
  // Posting records

  /**
   * `Upload` posts the mapped record exactly when mapping succeeds, the
   * listing resolves and does not hold `key`; it sends nothing else but the
   * refresh.
   */
  lemma UploadPosts(env: Env, ctx: Ctx, st: WalkState, record: Element, kind: XnatType, p: Parent, key: string)
    ensures var body := MapXmlSpec(ctx.source, ctx.destination, st.idMap, record, kind);
            var listed := Listing(View(env, st), p);
            var w := Upload(env, ctx, st, record, kind, p, key);
            Posts(w.state.requests)
              == Posts(st.requests) + (if body.Ok? && listed.Ok? && key !in listed.value then [Post(p, body.value)] else [])
            && Grows(st, w.state)
  {
    var body := MapXmlSpec(ctx.source, ctx.destination, st.idMap, record, kind);
    if body.Ok? {
      PostIfAbsentPosts(env, st, p, key, body.value);
    }
  }

  /** `PostIfAbsent` posts the body exactly when the label is not listed, and sends no PUT. */
  lemma PostIfAbsentPosts(env: Env, st: WalkState, p: Parent, key: string, body: Element)
    ensures var listed := Listing(View(env, st), p);
            var w := PostIfAbsent(env, st, p, key, body);
            Posts(w.state.requests)
              == Posts(st.requests) + (if listed.Ok? && key !in listed.value then [Post(p, body)] else [])
            && Grows(st, w.state)
  {
    var listed := Listing(View(env, st), p);
    if listed.Ok? {
      if key in listed.value {
        RefreshLog(env, st, p);
      } else {
        SendLog(st, Post(p, body));
        RefreshLog(env, Send(st, Post(p, body)), p);
      }
    }
  }

  /** Sending a request appends it to the log: one more PUT for a PUT, one more POST for a POST. */
  lemma SendLog(st: WalkState, r: Request)
    ensures PutCount(Send(st, r).requests) == PutCount(st.requests) + (if r.Put? then 1 else 0)
    ensures Posts(Send(st, r).requests) == Posts(st.requests) + (if r.Post? then [r] else [])
  {
    assert (st.requests + [r])[..|st.requests|] == st.requests;
  }

  lemma RefreshLog(env: Env, st: WalkState, p: Parent)
    ensures var w := RefreshListing(env, st, p);
            Grows(st, w.state) && Posts(w.state.requests) == Posts(st.requests)
  {
    if Listing(View(env, st), p).Ok? {
      SendLog(st, Refresh(p));
    }
  }

  /** The create calls only add requests to the log, and no PUT. */
  lemma ProjectGrows(env: Env, ctx: Ctx, st: WalkState)
    ensures Grows(st, CreateProject(env, ctx, st).state)
  {
    if ctx.source.id in env.sourceProjects {
      UploadPosts(env, ctx, Visit(st, ProjectStep(ctx.source)), env.sourceProjects[ctx.source.id].record, Project, Projects, ctx.destination.id);
    }
  }

  lemma SubjectGrows(env: Env, ctx: Ctx, st: WalkState, s: SourceSubject)
    ensures Grows(st, CreateSubject(env, ctx, st, s).state)
  {
    SubjectPostedWhenAbsent(env, ctx, st, s);
  }

  lemma ExperimentGrows(env: Env, ctx: Ctx, st: WalkState, s: SourceSubject, e: SourceExperiment)
    ensures Grows(st, CreateExperiment(env, ctx, st, s, e).state)
  {
    ExperimentPostedWhenAbsent(env, ctx, st, s, e);
  }

  lemma ScanGrows(env: Env, ctx: Ctx, st: WalkState, s: SourceSubject, e: SourceExperiment, scan: SourceScan)
    ensures Grows(st, CreateScan(env, ctx, st, s, e, scan).state)
  {
    ScanPostedWhenAbsent(env, ctx, st, s, e, scan);
  }

  lemma AssessorGrows(env: Env, ctx: Ctx, st: WalkState, s: SourceSubject, e: SourceExperiment, a: SourceAssessor)
    ensures Grows(st, CreateAssessor(env, ctx, st, s, e, a).state)
  {
    AssessorPostedWhenAbsent(env, ctx, st, s, e, a);
  }

  /** A project is posted only when its destination identifier is not yet listed. */
  lemma ProjectPostedWhenAbsent(env: Env, ctx: Ctx, st: WalkState)
    requires ctx.source.id in env.sourceProjects
    ensures var body := MapXmlSpec(ctx.source, ctx.destination, st.idMap, env.sourceProjects[ctx.source.id].record, Project);
            Posts(CreateProject(env, ctx, st).state.requests)
              == Posts(st.requests)
                 + (if body.Ok? && ctx.destination.id !in Entries(View(env, st), Projects) then [Post(Projects, body.value)] else [])
  {
    UploadPosts(env, ctx, Visit(st, ProjectStep(ctx.source)), env.sourceProjects[ctx.source.id].record, Project, Projects, ctx.destination.id);
  }

  /** A subject is posted only by its owning project, and only when its label is not yet listed. */
  lemma SubjectPostedWhenAbsent(env: Env, ctx: Ctx, st: WalkState, s: SourceSubject)
    ensures var d := ctx.destination.id;
            var body := MapXmlSpec(ctx.source, ctx.destination, st.idMap, s.record, XnatType.Subject);
            var listed := Listing(View(env, st), Subjects(d));
            Posts(CreateSubject(env, ctx, st, s).state.requests)
              == Posts(st.requests)
                 + (if Owner(s.record) == Ok(ctx.source.id) && body.Ok? && listed.Ok? && s.name !in listed.value
                    then [Post(Subjects(d), body.value)] else [])
    ensures Grows(st, CreateSubject(env, ctx, st, s).state)
  {
    if Owner(s.record) == Ok(ctx.source.id) {
      var st1 := Visit(st, SubjectStep(s)).(subjectSharing := Collect(st.subjectSharing, s.name, s.name,
        SharingRecord(None, [], s.id, None), Ownership(ctx.destination.id, s.name), s.id));
      UploadPosts(env, ctx, st1, s.record, XnatType.Subject, Subjects(ctx.destination.id), s.name);
      var w := Upload(env, ctx, st1, s.record, XnatType.Subject, Subjects(ctx.destination.id), s.name);
      assert CreateSubject(env, ctx, st, s).state.requests == w.state.requests;
    }
  }

  /** An experiment is posted only by its owning project, and only when its label is not yet listed. */
  lemma ExperimentPostedWhenAbsent(env: Env, ctx: Ctx, st: WalkState, s: SourceSubject, e: SourceExperiment)
    ensures var p := Experiments(ctx.destination.id, s.name);
            var body := MapXmlSpec(ctx.source, ctx.destination, st.idMap, e.record, XnatType.Experiment);
            var listed := Listing(View(env, st), p);
            Posts(CreateExperiment(env, ctx, st, s, e).state.requests)
              == Posts(st.requests)
                 + (if Owner(e.record) == Ok(ctx.source.id) && body.Ok? && listed.Ok? && e.name !in listed.value
                    then [Post(p, body.value)] else [])
    ensures Grows(st, CreateExperiment(env, ctx, st, s, e).state)
  {
    if Owner(e.record) == Ok(ctx.source.id) {
      var st1 := Visit(st, ExperimentStep(s, e)).(experimentSharing := Collect(st.experimentSharing, e.id, e.name,
        SharingRecord(None, [], e.id, None), Ownership(ctx.destination.id, e.name), e.id));
      var p := Experiments(ctx.destination.id, s.name);
      UploadPosts(env, ctx, st1, e.record, XnatType.Experiment, p, e.name);
      var w := Upload(env, ctx, st1, e.record, XnatType.Experiment, p, e.name);
      if w.outcome.Pass? {
        RetryPostsNothing(env, w.state, p, e.name, e.id, XnatType.Experiment);
      }
    }
  }

  /** A scan is posted only when its experiment is owned here, and only when its identifier is not yet listed. */
  lemma ScanPostedWhenAbsent(env: Env, ctx: Ctx, st: WalkState, s: SourceSubject, e: SourceExperiment, scan: SourceScan)
    ensures var p := Scans(ctx.destination.id, s.name, e.name);
            var body := MapXmlSpec(ctx.source, ctx.destination, st.idMap, scan.record, XnatType.Scan);
            var listed := Listing(View(env, st), p);
            Posts(CreateScan(env, ctx, st, s, e, scan).state.requests)
              == Posts(st.requests)
                 + (if Owner(e.record) == Ok(ctx.source.id) && body.Ok? && listed.Ok? && scan.id !in listed.value
                    then [Post(p, body.value)] else [])
    ensures Grows(st, CreateScan(env, ctx, st, s, e, scan).state)
  {
    if Owner(e.record) == Ok(ctx.source.id) {
      UploadPosts(env, ctx, Visit(st, ScanStep(s, e, scan)), scan.record, XnatType.Scan, Scans(ctx.destination.id, s.name, e.name), scan.id);
    }
  }

  /** An assessor is posted only by its owning project, and only when its label is not yet listed. */
  lemma AssessorPostedWhenAbsent(env: Env, ctx: Ctx, st: WalkState, s: SourceSubject, e: SourceExperiment, a: SourceAssessor)
    ensures var p := Assessors(ctx.destination.id, s.name, e.name);
            var body := MapXmlSpec(ctx.source, ctx.destination, st.idMap, a.record, XnatType.Assessor);
            var listed := Listing(View(env, st), p);
            Posts(CreateAssessor(env, ctx, st, s, e, a).state.requests)
              == Posts(st.requests)
                 + (if Owner(a.record) == Ok(ctx.source.id) && body.Ok? && listed.Ok? && a.name !in listed.value
                    then [Post(p, body.value)] else [])
    ensures Grows(st, CreateAssessor(env, ctx, st, s, e, a).state)
  {
    if Owner(a.record) == Ok(ctx.source.id) {
      var st1 := Visit(st, AssessorStep(s, e, a)).(assessorSharing := Collect(st.assessorSharing, a.id, a.name,
        SharingRecord(None, [], a.id, None), Ownership(ctx.destination.id, a.name), a.id));
      var p := Assessors(ctx.destination.id, s.name, e.name);
      UploadPosts(env, ctx, st1, a.record, XnatType.Assessor, p, a.name);
      var w := Upload(env, ctx, st1, a.record, XnatType.Assessor, p, a.name);
      if w.outcome.Pass? {
        RetryPostsNothing(env, w.state, p, a.name, a.id, XnatType.Assessor);
      }
    }
  }

  lemma RetryPostsNothing(env: Env, st: WalkState, p: Parent, name: string, sourceId: string, kind: XnatType)
    requires kind in IdsToMap
    ensures var w := RememberWithRetry(env, st, p, name, sourceId, kind);
            Posts(w.state.requests) == Posts(st.requests) && Grows(st, w.state)
  {
    if LookupId(View(env, st), p, name).Err? {
      RefreshLog(env, Bump(st, kind), p);
    }
  }

  // ---------------------------------------------------------------------------
  // Sharing entries

  /** A subject owned elsewhere is only remembered: this project joins the entry under its label, nothing is sent or recorded. */
  lemma SubjectOwnedElsewhere(env: Env, ctx: Ctx, st: WalkState, s: SourceSubject)
    requires Owner(s.record).Ok? && Owner(s.record).value != ctx.source.id
    ensures var r := CreateSubject(env, ctx, st, s);
            var base := EntryOr(st.subjectSharing, s.name, SharingRecord(None, [], s.id, None));
            r.outcome == Pass
            && r.state.requests == st.requests && r.state.idMap == st.idMap && r.state.failed == st.failed
            && RecordAt(r.state.subjectSharing, s.name)
                 == Some(base.(projects := base.projects + [ctx.destination.id], sourceId := s.id))
  {
  }

  /** The owning project claims the subject's entry under its label. */
  lemma SubjectOwnedHere(env: Env, ctx: Ctx, st: WalkState, s: SourceSubject)
    requires Owner(s.record) == Ok(ctx.source.id)
    ensures var base := EntryOr(st.subjectSharing, s.name, SharingRecord(None, [], s.id, None));
            RecordAt(CreateSubject(env, ctx, st, s).state.subjectSharing, s.name)
              == Some(base.(owner := Some(ctx.destination.id), name := Some(s.name), sourceId := s.id))
  {
  }

  /**
   * An experiment's entry is read under its identifier but stored under its
   * label: the entry now under the label is the one found under the
   * identifier (or a fresh one), with this project's claim applied.
   */
  lemma ExperimentEntryReadByIdStoredByLabel(env: Env, ctx: Ctx, st: WalkState, s: SourceSubject, e: SourceExperiment)
    requires Owner(e.record).Ok?
    ensures var d := ctx.destination.id;
            var base := EntryOr(st.experimentSharing, e.id, SharingRecord(None, [], e.id, None));
            RecordAt(CreateExperiment(env, ctx, st, s, e).state.experimentSharing, e.name)
              == Some(if Owner(e.record).value == ctx.source.id
                      then base.(owner := Some(d), name := Some(e.name), sourceId := e.id)
                      else base.(projects := base.projects + [d], sourceId := e.id))
  {
  }

  /**
   * So an earlier participant list stored under the label survives only when
   * it is also found under the identifier: when no entry has the identifier as
   * key, a non-owning project leaves itself as the only participant.
   */
  lemma ExperimentParticipantsReplaced(env: Env, ctx: Ctx, st: WalkState, s: SourceSubject, e: SourceExperiment)
    requires Owner(e.record).Ok? && Owner(e.record).value != ctx.source.id
    requires e.id !in st.experimentSharing.refs
    ensures RecordAt(CreateExperiment(env, ctx, st, s, e).state.experimentSharing, e.name).Some?
    ensures RecordAt(CreateExperiment(env, ctx, st, s, e).state.experimentSharing, e.name).value.projects == [ctx.destination.id]
  {
    ExperimentEntryReadByIdStoredByLabel(env, ctx, st, s, e);
  }

  /** The assessor's entry follows the same identifier/label split as the experiment's. */
  lemma AssessorEntryReadByIdStoredByLabel(env: Env, ctx: Ctx, st: WalkState, s: SourceSubject, e: SourceExperiment, a: SourceAssessor)
    requires Owner(a.record).Ok?
    ensures var d := ctx.destination.id;
            var base := EntryOr(st.assessorSharing, a.id, SharingRecord(None, [], a.id, None));
            RecordAt(CreateAssessor(env, ctx, st, s, e, a).state.assessorSharing, a.name)
              == Some(if Owner(a.record).value == ctx.source.id
                      then base.(owner := Some(d), name := Some(a.name), sourceId := a.id)
                      else base.(projects := base.projects + [d], sourceId := a.id))
  {
  }

  // ---------------------------------------------------------------------------
  // Identifiers and failure counters

  /** `_create_project` records the project pair. */
  lemma ProjectRecorded(env: Env, ctx: Ctx, st: WalkState)
    ensures var r := CreateProject(env, ctx, st);
            r.outcome.Pass? ==> Lookup(r.state.idMap, Project, ctx.source.id) == Some(ctx.destination.id) && r.state.failed == st.failed
  {
    var st0 := Visit(st, ProjectStep(ctx.source));
    if ctx.source.id in env.sourceProjects {
      var w := Upload(env, ctx, st0, env.sourceProjects[ctx.source.id].record, Project, Projects, ctx.destination.id);
      if w.outcome.Pass? {
        assert CreateProject(env, ctx, st).state == Remember(w.state, ctx.source.id, ctx.destination.id, Project);
      }
    }
  }

  /**
   * A subject processed by its owner either has the destination identifier
   * read back from the listing recorded, or, when that read fails, counts one
   * failure and records nothing; the failure never escapes.
   */
  lemma SubjectRecordedOrCounted(env: Env, ctx: Ctx, st: WalkState, s: SourceSubject)
    requires Owner(s.record) == Ok(ctx.source.id)
    ensures var r := CreateSubject(env, ctx, st, s);
            var readBack := LookupId(View(env, r.state), Subjects(ctx.destination.id), s.name);
            r.outcome.Pass? ==>
              (readBack.Ok? ==> r.state.failed == st.failed && Lookup(r.state.idMap, XnatType.Subject, s.id) == Some(readBack.value))
              && (readBack.Err? ==> r.state.failed == st.failed.(subject := st.failed.subject + 1) && r.state.idMap == st.idMap)
  {
    var d := ctx.destination.id;
    var st1 := Visit(st, SubjectStep(s)).(subjectSharing := Collect(st.subjectSharing, s.name, s.name,
      SharingRecord(None, [], s.id, None), Ownership(d, s.name), s.id));
    var w := Upload(env, ctx, st1, s.record, XnatType.Subject, Subjects(d), s.name);
    var r := CreateSubject(env, ctx, st, s);
    if w.outcome.Pass? {
      match LookupId(View(env, w.state), Subjects(d), s.name)
      case Ok(id) =>
        assert r.state == Remember(w.state, s.id, id, XnatType.Subject);
      case Err(_) =>
        assert r.state == Bump(w.state, XnatType.Subject);
    }
  }

  /**
   * The retried read of experiments and assessors: a first read that fails is
   * counted once and the listing refreshed; a passing call has recorded the
   * identifier read back last; an escaping failure was counted.
   */
  lemma RetryCountsOnce(env: Env, st: WalkState, p: Parent, name: string, sourceId: string, kind: XnatType)
    requires kind == XnatType.Experiment || kind == XnatType.Assessor
    ensures var r := RememberWithRetry(env, st, p, name, sourceId, kind);
            var readBack := LookupId(View(env, r.state), p, name);
            (r.state.failed == Bump(st, kind).failed <==> LookupId(View(env, st), p, name).Err?)
            && (r.state.failed == st.failed <==> LookupId(View(env, st), p, name).Ok?)
            && (r.outcome.Pass? ==> readBack.Ok? && Lookup(r.state.idMap, XnatType.Experiment, sourceId) == Some(readBack.value))
            && (r.outcome.Fail? ==> r.state.failed == Bump(st, kind).failed && r.state.idMap == st.idMap)
  {
    var r := RememberWithRetry(env, st, p, name, sourceId, kind);
    assert Bump(st, kind).failed != st.failed;
    match LookupId(View(env, st), p, name)
    case Ok(id) =>
      assert r.state == Remember(st, sourceId, id, kind);
    case Err(_) =>
      var w := RefreshListing(env, Bump(st, kind), p);
      if w.outcome.Pass? {
        match LookupId(View(env, w.state), p, name)
        case Err(e) =>
          assert r == Walked(w.state, Fail(e));
        case Ok(id) =>
          assert r.state == Remember(w.state, sourceId, id, kind);
          assert View(env, r.state) == View(env, w.state);
      }
  }

  /** The project and scan calls never move a counter; the scan's `except` branch cannot be reached. */
  lemma ProjectAndScanNeverCount(env: Env, ctx: Ctx, st: WalkState, s: SourceSubject, e: SourceExperiment, scan: SourceScan)
    ensures CreateProject(env, ctx, st).state.failed == st.failed
    ensures CreateScan(env, ctx, st, s, e, scan).state.failed == st.failed
  {
  }

  /** The subject call moves only the subject counter, by at most one. */
  lemma SubjectCountsAtMostOnce(env: Env, ctx: Ctx, st: WalkState, s: SourceSubject)
    ensures CreateSubject(env, ctx, st, s).state.failed in {st.failed, st.failed.(subject := st.failed.subject + 1)}
  {
    var d := ctx.destination.id;
    var r := CreateSubject(env, ctx, st, s);
    if Owner(s.record) == Ok(ctx.source.id) {
      var st1 := Visit(st, SubjectStep(s)).(subjectSharing := Collect(st.subjectSharing, s.name, s.name,
        SharingRecord(None, [], s.id, None), Ownership(d, s.name), s.id));
      var w := Upload(env, ctx, st1, s.record, XnatType.Subject, Subjects(d), s.name);
      if w.outcome.Pass? {
        match LookupId(View(env, w.state), Subjects(d), s.name)
        case Ok(id) =>
          assert r.state == Remember(w.state, s.id, id, XnatType.Subject);
        case Err(_) =>
          assert r.state == Bump(w.state, XnatType.Subject);
      }
    }
  }

  /** The experiment call moves only the experiment counter, by at most one. */
  lemma ExperimentCountsAtMostOnce(env: Env, ctx: Ctx, st: WalkState, s: SourceSubject, e: SourceExperiment)
    ensures CreateExperiment(env, ctx, st, s, e).state.failed in {st.failed, st.failed.(experiment := st.failed.experiment + 1)}
  {
    var p := Experiments(ctx.destination.id, s.name);
    if Owner(e.record) == Ok(ctx.source.id) {
      var st1 := Visit(st, ExperimentStep(s, e)).(experimentSharing := Collect(st.experimentSharing, e.id, e.name,
        SharingRecord(None, [], e.id, None), Ownership(ctx.destination.id, e.name), e.id));
      var w := Upload(env, ctx, st1, e.record, XnatType.Experiment, p, e.name);
      if w.outcome.Pass? {
        RetryCountsOnce(env, w.state, p, e.name, e.id, XnatType.Experiment);
      }
    }
  }

  /** The assessor call moves only the assessor counter, by at most one. */
  lemma AssessorCountsAtMostOnce(env: Env, ctx: Ctx, st: WalkState, s: SourceSubject, e: SourceExperiment, a: SourceAssessor)
    ensures CreateAssessor(env, ctx, st, s, e, a).state.failed in {st.failed, st.failed.(assessor := st.failed.assessor + 1)}
  {
    var p := Assessors(ctx.destination.id, s.name, e.name);
    if Owner(a.record) == Ok(ctx.source.id) {
      var st1 := Visit(st, AssessorStep(s, e, a)).(assessorSharing := Collect(st.assessorSharing, a.id, a.name,
        SharingRecord(None, [], a.id, None), Ownership(ctx.destination.id, a.name), a.id));
      var w := Upload(env, ctx, st1, a.record, XnatType.Assessor, p, a.name);
      if w.outcome.Pass? {
        RetryCountsOnce(env, w.state, p, a.name, a.id, XnatType.Assessor);
      }
    }
  }

  /** A scan of an experiment owned by another project changes nothing but the trace. */
  lemma ScanOfSharedExperimentSkipped(env: Env, ctx: Ctx, st: WalkState, s: SourceSubject, e: SourceExperiment, scan: SourceScan)
    requires Owner(e.record).Ok? && Owner(e.record).value != ctx.source.id
    ensures CreateScan(env, ctx, st, s, e, scan) == Walked(Visit(st, ScanStep(s, e, scan)), Pass)
  {
  }

  /** A scan keeps its identifier: the scan table maps it to itself. */
  lemma ScanKeepsIdentifier(env: Env, ctx: Ctx, st: WalkState, s: SourceSubject, e: SourceExperiment, scan: SourceScan)
    requires Owner(e.record) == Ok(ctx.source.id)
    ensures var r := CreateScan(env, ctx, st, s, e, scan);
            r.outcome.Pass? ==> Lookup(r.state.idMap, XnatType.Scan, scan.id) == Some(scan.id)
  {
  }

  // ---------------------------------------------------------------------------
  // The walk

  /** `after` extends `before` by a prefix of `order`, by all of it when `complete`. */
  predicate Follows(before: seq<Step>, after: seq<Step>, order: seq<Step>, complete: bool) {
    before <= after && after[|before|..] <= order && (complete ==> after[|before|..] == order)
  }

  /** Only requests are added, and none of them shares anything. */
  predicate Grows(before: WalkState, after: WalkState) {
    before.requests <= after.requests && PutCount(after.requests) == PutCount(before.requests)
  }

  /** Every experiment among `steps` has a datatype the destination declares. */
  predicate AllSupported(steps: seq<Step>, datatypes: seq<string>) {
    forall k :: 0 <= k < |steps| && steps[k].ExperimentStep? ==> steps[k].experiment.xsiType in datatypes
  }

  lemma FollowsStep(t: seq<Step>, x: Step)
    ensures Follows(t, t + [x], [x], true)
  {
    assert (t + [x])[|t|..] == [x];
  }

  lemma FollowsThen(t0: seq<Step>, t1: seq<Step>, t2: seq<Step>, first: seq<Step>, rest: seq<Step>, complete: bool)
    requires Follows(t0, t1, first, true) && Follows(t1, t2, rest, complete)
    ensures Follows(t0, t2, first + rest, complete)
  {
    assert t2[|t0|..] == t1[|t0|..] + t2[|t1|..];
  }

  lemma FollowsStop(t0: seq<Step>, t1: seq<Step>, first: seq<Step>, rest: seq<Step>, complete: bool)
    requires Follows(t0, t1, first, complete)
    ensures Follows(t0, t1, first + rest, false)
  {
    assert (first + rest)[..|first|] == first;
  }

  lemma SupportedPrefix(steps: seq<Step>, whole: seq<Step>, datatypes: seq<string>)
    requires steps <= whole && AllSupported(whole, datatypes)
    ensures AllSupported(steps, datatypes)
  {
    assert forall k :: 0 <= k < |steps| ==> steps[k] == whole[k];
  }

  lemma SupportedConcat(a: seq<Step>, b: seq<Step>, datatypes: seq<string>)
    requires AllSupported(a, datatypes) && AllSupported(b, datatypes)
    ensures AllSupported(a + b, datatypes)
  {
    assert forall k :: |a| <= k < |a + b| ==> (a + b)[k] == b[k - |a|];
  }

  lemma SupportedThen(t0: seq<Step>, t1: seq<Step>, t2: seq<Step>, datatypes: seq<string>)
    requires t0 <= t1 <= t2
    requires AllSupported(t1[|t0|..], datatypes) && AllSupported(t2[|t1|..], datatypes)
    ensures AllSupported(t2[|t0|..], datatypes)
  {
    assert t2[|t0|..] == t1[|t0|..] + t2[|t1|..];
    SupportedConcat(t1[|t0|..], t2[|t1|..], datatypes);
  }

  lemma {:induction false} WalkScansTrace(env: Env, ctx: Ctx, st: WalkState, s: SourceSubject, e: SourceExperiment, scans: seq<SourceScan>)
    ensures var w := WalkScans(env, ctx, st, s, e, scans);
            Follows(st.trace, w.state.trace, ScanSteps(s, e, scans), w.outcome.Pass?) && Grows(st, w.state)
    decreases |scans|
  {
    if scans != [] {
      var w0 := CreateScan(env, ctx, st, s, e, scans[0]);
      ScanGrows(env, ctx, st, s, e, scans[0]);
      var first, rest := [ScanStep(s, e, scans[0])], ScanSteps(s, e, scans[1..]);
      assert ScanSteps(s, e, scans) == first + rest;
      FollowsStep(st.trace, ScanStep(s, e, scans[0]));
      if w0.outcome.Pass? {
        WalkScansTrace(env, ctx, w0.state, s, e, scans[1..]);
        var w := WalkScans(env, ctx, w0.state, s, e, scans[1..]);
        FollowsThen(st.trace, w0.state.trace, w.state.trace, first, rest, w.outcome.Pass?);
      } else {
        FollowsStop(st.trace, w0.state.trace, first, rest, true);
      }
    }
  }

  lemma {:induction false} WalkAssessorsTrace(env: Env, ctx: Ctx, st: WalkState, s: SourceSubject, e: SourceExperiment, assessors: seq<SourceAssessor>)
    ensures var w := WalkAssessors(env, ctx, st, s, e, assessors);
            Follows(st.trace, w.state.trace, AssessorSteps(s, e, assessors), w.outcome.Pass?) && Grows(st, w.state)
    decreases |assessors|
  {
    if assessors != [] {
      var w0 := CreateAssessor(env, ctx, st, s, e, assessors[0]);
      AssessorGrows(env, ctx, st, s, e, assessors[0]);
      var first, rest := [AssessorStep(s, e, assessors[0])], AssessorSteps(s, e, assessors[1..]);
      assert AssessorSteps(s, e, assessors) == first + rest;
      FollowsStep(st.trace, AssessorStep(s, e, assessors[0]));
      if w0.outcome.Pass? {
        WalkAssessorsTrace(env, ctx, w0.state, s, e, assessors[1..]);
        var w := WalkAssessors(env, ctx, w0.state, s, e, assessors[1..]);
        FollowsThen(st.trace, w0.state.trace, w.state.trace, first, rest, w.outcome.Pass?);
      } else {
        FollowsStop(st.trace, w0.state.trace, first, rest, true);
      }
    }
  }

  /** The scans of an experiment, then its assessors, stopping at the first exception. */
  lemma ChildrenTrace(env: Env, ctx: Ctx, st: WalkState, s: SourceSubject, e: SourceExperiment)
    ensures var w1 := WalkScans(env, ctx, st, s, e, e.scans);
            var w := if w1.outcome.Fail? then w1 else WalkAssessors(env, ctx, w1.state, s, e, e.assessors);
            Follows(st.trace, w.state.trace, ScanSteps(s, e, e.scans) + AssessorSteps(s, e, e.assessors), w.outcome.Pass?)
            && Grows(st, w.state)
  {
    var scans, assessors := ScanSteps(s, e, e.scans), AssessorSteps(s, e, e.assessors);
    WalkScansTrace(env, ctx, st, s, e, e.scans);
    var w1 := WalkScans(env, ctx, st, s, e, e.scans);
    if w1.outcome.Fail? {
      FollowsStop(st.trace, w1.state.trace, scans, assessors, false);
    } else {
      WalkAssessorsTrace(env, ctx, w1.state, s, e, e.assessors);
      var w := WalkAssessors(env, ctx, w1.state, s, e, e.assessors);
      FollowsThen(st.trace, w1.state.trace, w.state.trace, scans, assessors, w.outcome.Pass?);
    }
  }

  /**
   * One experiment: an unsupported datatype raises before anything happens;
   * otherwise the experiment, then its scans, then its assessors.
   */
  lemma WalkExperimentTrace(env: Env, ctx: Ctx, datatypes: seq<string>, st: WalkState, s: SourceSubject, e: SourceExperiment)
    ensures var w := WalkExperiment(env, ctx, datatypes, st, s, e);
            Follows(st.trace, w.state.trace, ExperimentOrder(s, e), w.outcome.Pass?) && Grows(st, w.state)
            && AllSupported(w.state.trace[|st.trace|..], datatypes)
    ensures e.xsiType !in datatypes ==>
              WalkExperiment(env, ctx, datatypes, st, s, e) == Walked(st, Fail(UnsupportedDatatype(e.xsiType)))
  {
    var w := WalkExperiment(env, ctx, datatypes, st, s, e);
    if e.xsiType in datatypes {
      var head := [ExperimentStep(s, e)];
      var scans, assessors := ScanSteps(s, e, e.scans), AssessorSteps(s, e, e.assessors);
      assert ExperimentOrder(s, e) == head + (scans + assessors);
      var w0 := CreateExperiment(env, ctx, st, s, e);
      ExperimentGrows(env, ctx, st, s, e);
      FollowsStep(st.trace, ExperimentStep(s, e));
      if w0.outcome.Fail? {
        FollowsStop(st.trace, w0.state.trace, head, scans + assessors, true);
      } else {
        ChildrenTrace(env, ctx, w0.state, s, e);
        FollowsThen(st.trace, w0.state.trace, w.state.trace, head, scans + assessors, w.outcome.Pass?);
      }
      assert AllSupported(ExperimentOrder(s, e), datatypes);
      SupportedPrefix(w.state.trace[|st.trace|..], ExperimentOrder(s, e), datatypes);
    }
  }

  lemma {:induction false} WalkExperimentsTrace(env: Env, ctx: Ctx, datatypes: seq<string>, st: WalkState, s: SourceSubject, es: seq<SourceExperiment>)
    ensures var w := WalkExperiments(env, ctx, datatypes, st, s, es);
            Follows(st.trace, w.state.trace, ExperimentsOrder(s, es), w.outcome.Pass?) && Grows(st, w.state)
            && AllSupported(w.state.trace[|st.trace|..], datatypes)
    decreases |es|
  {
    if es != [] {
      var w0 := WalkExperiment(env, ctx, datatypes, st, s, es[0]);
      WalkExperimentTrace(env, ctx, datatypes, st, s, es[0]);
      var first, rest := ExperimentOrder(s, es[0]), ExperimentsOrder(s, es[1..]);
      if w0.outcome.Pass? {
        WalkExperimentsTrace(env, ctx, datatypes, w0.state, s, es[1..]);
        var w := WalkExperiments(env, ctx, datatypes, w0.state, s, es[1..]);
        FollowsThen(st.trace, w0.state.trace, w.state.trace, first, rest, w.outcome.Pass?);
        assert w.state.trace[|st.trace|..] == w0.state.trace[|st.trace|..] + w.state.trace[|w0.state.trace|..];
        SupportedConcat(w0.state.trace[|st.trace|..], w.state.trace[|w0.state.trace|..], datatypes);
      } else {
        FollowsStop(st.trace, w0.state.trace, first, rest, false);
      }
    }
  }

  lemma WalkSubjectTrace(env: Env, ctx: Ctx, datatypes: seq<string>, st: WalkState, s: SourceSubject)
    ensures var w := WalkSubject(env, ctx, datatypes, st, s);
            Follows(st.trace, w.state.trace, SubjectOrder(s), w.outcome.Pass?) && Grows(st, w.state)
            && AllSupported(w.state.trace[|st.trace|..], datatypes)
  {
    var w0 := CreateSubject(env, ctx, st, s);
    SubjectGrows(env, ctx, st, s);
    var first, rest := [SubjectStep(s)], ExperimentsOrder(s, s.experiments);
    FollowsStep(st.trace, SubjectStep(s));
    if w0.outcome.Pass? {
      WalkExperimentsTrace(env, ctx, datatypes, w0.state, s, s.experiments);
      var w := WalkExperiments(env, ctx, datatypes, w0.state, s, s.experiments);
      FollowsThen(st.trace, w0.state.trace, w.state.trace, first, rest, w.outcome.Pass?);
      assert w.state.trace[|st.trace|..] == [SubjectStep(s)] + w.state.trace[|w0.state.trace|..];
      SupportedConcat([SubjectStep(s)], w.state.trace[|w0.state.trace|..], datatypes);
    } else {
      FollowsStop(st.trace, w0.state.trace, first, rest, true);
    }
  }

  /**
   * The walk over a project's subjects makes its create calls in the order of
   * `SubjectsOrder` and stops at the first exception: the calls made are a
   * prefix of that order, all of it when nothing escaped. Every experiment it
   * processed has a supported datatype, and it sends no sharing request.
   */
  lemma {:induction false} WalkSubjectsTrace(env: Env, ctx: Ctx, datatypes: seq<string>, st: WalkState, ss: seq<SourceSubject>)
    ensures var w := WalkSubjects(env, ctx, datatypes, st, ss);
            Follows(st.trace, w.state.trace, SubjectsOrder(ss), w.outcome.Pass?) && Grows(st, w.state)
            && AllSupported(w.state.trace[|st.trace|..], datatypes)
    decreases |ss|
  {
    if ss != [] {
      var w0 := WalkSubject(env, ctx, datatypes, st, ss[0]);
      WalkSubjectTrace(env, ctx, datatypes, st, ss[0]);
      var first, rest := SubjectOrder(ss[0]), SubjectsOrder(ss[1..]);
      if w0.outcome.Pass? {
        WalkSubjectsTrace(env, ctx, datatypes, w0.state, ss[1..]);
        var w := WalkSubjects(env, ctx, datatypes, w0.state, ss[1..]);
        FollowsThen(st.trace, w0.state.trace, w.state.trace, first, rest, w.outcome.Pass?);
        assert w.state.trace[|st.trace|..] == w0.state.trace[|st.trace|..] + w.state.trace[|w0.state.trace|..];
        SupportedConcat(w0.state.trace[|st.trace|..], w.state.trace[|w0.state.trace|..], datatypes);
      } else {
        FollowsStop(st.trace, w0.state.trace, first, rest, false);
      }
    }
  }

  lemma {:induction false} ExperimentsOrderHas(s: SourceSubject, es: seq<SourceExperiment>, j: nat)
    requires j < |es|
    ensures ExperimentStep(s, es[j]) in ExperimentsOrder(s, es)
    decreases j
  {
    if j == 0 {
      assert ExperimentsOrder(s, es)[0] == ExperimentStep(s, es[0]);
    } else {
      ExperimentsOrderHas(s, es[1..], j - 1);
    }
  }

  lemma {:induction false} SubjectsOrderHas(ss: seq<SourceSubject>, i: nat, j: nat)
    requires i < |ss| && j < |ss[i].experiments|
    ensures ExperimentStep(ss[i], ss[i].experiments[j]) in SubjectsOrder(ss)
    decreases i
  {
    if i == 0 {
      ExperimentsOrderHas(ss[0], ss[0].experiments, j);
    } else {
      SubjectsOrderHas(ss[1..], i - 1, j);
    }
  }

  /**
   * An experiment whose datatype the destination does not declare makes the
   * walk raise, and is never processed itself.
   */
  lemma UnsupportedStopsWalk(env: Env, ctx: Ctx, datatypes: seq<string>, st: WalkState, ss: seq<SourceSubject>, i: nat, j: nat)
    requires i < |ss| && j < |ss[i].experiments| && ss[i].experiments[j].xsiType !in datatypes
    ensures var w := WalkSubjects(env, ctx, datatypes, st, ss);
            w.outcome.Fail? && st.trace <= w.state.trace
            && ExperimentStep(ss[i], ss[i].experiments[j]) !in w.state.trace[|st.trace|..]
  {
    WalkSubjectsTrace(env, ctx, datatypes, st, ss);
    var w := WalkSubjects(env, ctx, datatypes, st, ss);
    var done := w.state.trace[|st.trace|..];
    forall k | 0 <= k < |done|
      ensures done[k] != ExperimentStep(ss[i], ss[i].experiments[j])
    {
      if done[k].ExperimentStep? {
        assert done[k].experiment.xsiType in datatypes;
      }
    }
    if w.outcome.Pass? {
      SubjectsOrderHas(ss, i, j);
    }
  }

  /** The create calls of one project pair: the project, then its tree unless only files are copied. */
  function PairOrder(env: Env, source: ProjectInfo, rsyncOnly: bool): seq<Step> {
    [ProjectStep(source)]
    + (if rsyncOnly || source.id !in env.sourceProjects then [] else SubjectsOrder(env.sourceProjects[source.id].subjects))
  }

  /** `_create_resources` makes the calls of `PairOrder` and stops at the first exception. */
  lemma CreateResourcesTrace(env: Env, ctx: Ctx, rsyncOnly: bool, st: WalkState)
    ensures var w := CreateResources(env, ctx, rsyncOnly, st);
            Follows(st.trace, w.state.trace, PairOrder(env, ctx.source, rsyncOnly), w.outcome.Pass?) && Grows(st, w.state)
            && AllSupported(w.state.trace[|st.trace|..], env.destinationDatatypes)
    ensures rsyncOnly ==> CreateResources(env, ctx, rsyncOnly, st).state.trace == st.trace + [ProjectStep(ctx.source)]
  {
    var w0 := CreateProject(env, ctx, st);
    ProjectGrows(env, ctx, st);
    var w := CreateResources(env, ctx, rsyncOnly, st);
    var first := [ProjectStep(ctx.source)];
    var rest := if rsyncOnly || ctx.source.id !in env.sourceProjects then [] else SubjectsOrder(env.sourceProjects[ctx.source.id].subjects);
    FollowsStep(st.trace, ProjectStep(ctx.source));
    assert AllSupported(w0.state.trace[|st.trace|..], env.destinationDatatypes);
    if w0.outcome.Fail? || rsyncOnly {
      FollowsStop(st.trace, w0.state.trace, first, rest, w0.outcome.Pass?);
    } else {
      var ss := env.sourceProjects[ctx.source.id].subjects;
      WalkSubjectsTrace(env, ctx, env.destinationDatatypes, w0.state, ss);
      FollowsThen(st.trace, w0.state.trace, w.state.trace, first, rest, w.outcome.Pass?);
      SupportedThen(st.trace, w0.state.trace, w.state.trace, env.destinationDatatypes);
    }
  }

  // ---------------------------------------------------------------------------
  // Sharing

  /** The destination identifier comes from the first mapper, in list order, that knows the source identifier. */
  lemma {:induction false} FindDestinationIdFirst(idMaps: seq<IdMap>, sourceId: string, kind: XnatType)
    ensures var r := FindDestinationId(idMaps, sourceId, kind);
            (r.None? <==> forall i :: 0 <= i < |idMaps| ==> GetDestinationId(idMaps[i], sourceId, kind).Err?)
            && (r.Some? ==> exists i :: 0 <= i < |idMaps| && GetDestinationId(idMaps[i], sourceId, kind) == Ok(r.value)
                                        && forall j :: 0 <= j < i ==> GetDestinationId(idMaps[j], sourceId, kind).Err?)
    decreases |idMaps|
  {
    if idMaps != [] && GetDestinationId(idMaps[0], sourceId, kind).Err? {
      FindDestinationIdFirst(idMaps[1..], sourceId, kind);
      var r := FindDestinationId(idMaps, sourceId, kind);
      if r.Some? {
        var i :| 0 <= i < |idMaps[1..]| && GetDestinationId(idMaps[1..][i], sourceId, kind) == Ok(r.value)
                 && forall j :: 0 <= j < i ==> GetDestinationId(idMaps[1..][j], sourceId, kind).Err?;
        assert GetDestinationId(idMaps[i + 1], sourceId, kind) == Ok(r.value);
        assert forall j :: 1 <= j < i + 1 ==> idMaps[j] == idMaps[1..][j - 1];
      } else {
        assert forall i :: 1 <= i < |idMaps| ==> idMaps[i] == idMaps[1..][i - 1];
      }
    }
  }

  /** `q` is the sharing request for project `q.project` of the entry under `key`. */
  predicate ShareOf(kind: XnatType, t: SharingTable, key: string, idMaps: seq<IdMap>, q: Request) {
    match RecordAt(t, key)
    case None => false
    case Some(rec) =>
      match FindDestinationId(idMaps, rec.sourceId, kind)
      case None => false
      case Some(id) => q.Put? && q == Put(kind, rec.owner, id, q.project, key) && q.project in rec.projects
  }

  /**
   * An entry yields one PUT per participating project, repeats included, and
   * none when no mapper knows its identifier.
   */
  lemma EntryRequestsCount(kind: XnatType, key: string, t: SharingTable, idMaps: seq<IdMap>)
    ensures var rs := EntryRequests(kind, key, RecordAt(t, key), idMaps);
            |rs| == (if RecordAt(t, key).Some? && FindDestinationId(idMaps, RecordAt(t, key).value.sourceId, kind).Some?
                     then |RecordAt(t, key).value.projects| else 0)
            && PutCount(rs) == |rs|
            && forall q :: q in rs <==> ShareOf(kind, t, key, idMaps, q)
  {
    var rs := EntryRequests(kind, key, RecordAt(t, key), idMaps);
    if RecordAt(t, key).Some? && FindDestinationId(idMaps, RecordAt(t, key).value.sourceId, kind).Some? {
      var rec := RecordAt(t, key).value;
      var id := FindDestinationId(idMaps, rec.sourceId, kind).value;
      assert rs == Shares(kind, rec.owner, id, rec.projects, key);
      forall q
        ensures q in rs <==> ShareOf(kind, t, key, idMaps, q)
      {
        if q in rs {
          var i :| 0 <= i < |rs| && rs[i] == q;
          assert q.project == rec.projects[i];
        }
        if ShareOf(kind, t, key, idMaps, q) {
          var i :| 0 <= i < |rec.projects| && rec.projects[i] == q.project;
          assert rs[i] == q;
        }
      }
    }
    AllPuts(rs);
  }

  lemma {:induction false} AllPuts(rs: seq<Request>)
    requires forall q :: q in rs ==> q.Put?
    ensures PutCount(rs) == |rs|
    decreases |rs|
  {
    if rs != [] {
      AllPuts(rs[..|rs| - 1]);
    }
  }

  lemma {:induction false} PutCountConcat(a: seq<Request>, b: seq<Request>)
    ensures PutCount(a + b) == PutCount(a) + PutCount(b)
    decreases |b|
  {
    if b == [] {
      assert a + b == a;
    } else {
      assert (a + b)[..|a + b| - 1] == a + b[..|b| - 1];
      PutCountConcat(a, b[..|b| - 1]);
    }
  }

  /** A table's sharing requests are exactly the shares of its keys, and all of them are PUTs. */
  lemma {:induction false} TableRequestsExact(kind: XnatType, t: SharingTable, keys: seq<string>, idMaps: seq<IdMap>)
    ensures PutCount(TableRequests(kind, t, keys, idMaps)) == |TableRequests(kind, t, keys, idMaps)|
    ensures forall q :: q in TableRequests(kind, t, keys, idMaps) <==> exists k :: k in keys && ShareOf(kind, t, k, idMaps, q)
    decreases |keys|
  {
    if keys != [] {
      EntryRequestsCount(kind, keys[0], t, idMaps);
      TableRequestsExact(kind, t, keys[1..], idMaps);
      PutCountConcat(EntryRequests(kind, keys[0], RecordAt(t, keys[0]), idMaps), TableRequests(kind, t, keys[1..], idMaps));
      forall q
        ensures q in TableRequests(kind, t, keys, idMaps) <==> exists k :: k in keys && ShareOf(kind, t, k, idMaps, q)
      {
        if q in TableRequests(kind, t, keys, idMaps) && !ShareOf(kind, t, keys[0], idMaps, q) {
          var k :| k in keys[1..] && ShareOf(kind, t, k, idMaps, q);
          assert k in keys;
        }
        if exists k :: k in keys && ShareOf(kind, t, k, idMaps, q) {
          var k :| k in keys && ShareOf(kind, t, k, idMaps, q);
          if k != keys[0] {
            assert k in keys[1..];
          }
        }
      }
    }
  }

  /** `_apply_sharing` sends only PUTs: one per participant of each entry whose destination identifier is known. */
  lemma SharingRequestsArePuts(idMaps: seq<IdMap>, st: WalkState)
    ensures PutCount(SharingRequests(idMaps, st)) == |SharingRequests(idMaps, st)|
  {
    var a := TableRequests(XnatType.Subject, st.subjectSharing, st.subjectSharing.keys, idMaps);
    var b := TableRequests(XnatType.Experiment, st.experimentSharing, st.experimentSharing.keys, idMaps);
    var c := TableRequests(XnatType.Assessor, st.assessorSharing, st.assessorSharing.keys, idMaps);
    TableRequestsExact(XnatType.Subject, st.subjectSharing, st.subjectSharing.keys, idMaps);
    TableRequestsExact(XnatType.Experiment, st.experimentSharing, st.experimentSharing.keys, idMaps);
    TableRequestsExact(XnatType.Assessor, st.assessorSharing, st.assessorSharing.keys, idMaps);
    PutCountConcat(a, b);
    PutCountConcat(a + b, c);
  }

  // ---------------------------------------------------------------------------
  // The run

  /** The create calls of a whole run: the pairs in list order, each completed before the next starts. */
  function RunOrder(env: Env, sources: seq<ProjectInfo>, rsyncOnly: bool): seq<Step> {
    if sources == [] then [] else PairOrder(env, sources[0], rsyncOnly) + RunOrder(env, sources[1..], rsyncOnly)
  }

  lemma RunOrderSplit(env: Env, sources: seq<ProjectInfo>, i: nat, n: nat, rsyncOnly: bool)
    requires i < n <= |sources|
    ensures RunOrder(env, sources[i..n], rsyncOnly) == PairOrder(env, sources[i], rsyncOnly) + RunOrder(env, sources[i + 1..n], rsyncOnly)
  {
    assert sources[i..n][1..] == sources[i + 1..n];
  }

  lemma GrowsThen(s0: WalkState, s1: WalkState, s2: WalkState)
    requires Grows(s0, s1) && Grows(s1, s2)
    ensures Grows(s0, s2)
  {
  }

  /**
   * The pair loop from pair `i` makes the calls of `RunOrder` for the pairs
   * left, stops at the first exception, and sends no sharing request.
   */
  lemma {:induction false} RunPairsTrace(env: Env, sources: seq<ProjectInfo>, destinations: seq<ProjectInfo>, rsyncOnly: bool, st: RunState, i: nat)
    requires i <= |st.idMaps| <= |sources| && |st.idMaps| <= |destinations|
    ensures var r := RunPairs(env, sources, destinations, rsyncOnly, st, i);
            |r.state.idMaps| == |st.idMaps|
            && Follows(st.walk.trace, r.state.walk.trace, RunOrder(env, sources[i..|st.idMaps|], rsyncOnly), r.outcome.Pass?)
            && Grows(st.walk, r.state.walk)
    decreases |st.idMaps| - i
  {
    if i < |st.idMaps| {
      var ctx := Ctx(sources[i], destinations[i]);
      var ws := st.walk.(idMap := st.idMaps[i]);
      var w := CreateResources(env, ctx, rsyncOnly, ws);
      CreateResourcesTrace(env, ctx, rsyncOnly, ws);
      var next := RunState(st.idMaps[i := w.state.idMap], w.state);
      var first, rest := PairOrder(env, sources[i], rsyncOnly), RunOrder(env, sources[i + 1..|st.idMaps|], rsyncOnly);
      RunOrderSplit(env, sources, i, |st.idMaps|, rsyncOnly);
      var c := env.projectConfigs(sources[i], destinations[i]);
      if w.outcome.Pass? && c.Pass? {
        var r := RunPairs(env, sources, destinations, rsyncOnly, next, i + 1);
        assert RunPairs(env, sources, destinations, rsyncOnly, st, i) == r;
        RunPairsTrace(env, sources, destinations, rsyncOnly, next, i + 1);
        FollowsThen(st.walk.trace, w.state.trace, r.state.walk.trace, first, rest, r.outcome.Pass?);
        GrowsThen(st.walk, w.state, r.state.walk);
      } else {
        assert RunPairs(env, sources, destinations, rsyncOnly, st, i) == Ran(next, if w.outcome.Fail? then w.outcome else c);
        FollowsStop(st.walk.trace, w.state.trace, first, rest, w.outcome.Pass?);
      }
    } else {
      assert sources[i..|st.idMaps|] == [];
    }
  }

  /** When the pair loop from pair `i` passes, each pair `j` left had its configuration copied. */
  lemma {:induction false} RunPairsConfigs(env: Env, sources: seq<ProjectInfo>, destinations: seq<ProjectInfo>, rsyncOnly: bool, st: RunState, i: nat, j: nat)
    requires i <= j < |st.idMaps| <= |sources| && |st.idMaps| <= |destinations|
    requires RunPairs(env, sources, destinations, rsyncOnly, st, i).outcome.Pass?
    ensures env.projectConfigs(sources[j], destinations[j]).Pass?
    decreases j - i
  {
    var w := CreateResources(env, Ctx(sources[i], destinations[i]), rsyncOnly, st.walk.(idMap := st.idMaps[i]));
    var next := RunState(st.idMaps[i := w.state.idMap], w.state);
    assert w.outcome.Pass? && env.projectConfigs(sources[i], destinations[i]).Pass?;
    if i < j {
      assert RunPairs(env, sources, destinations, rsyncOnly, st, i) == RunPairs(env, sources, destinations, rsyncOnly, next, i + 1);
      RunPairsConfigs(env, sources, destinations, rsyncOnly, next, i + 1, j);
    }
  }

  /**
   * `run`: a failed datatype check, or a failure creating the users, changes
   * nothing; otherwise the pairs run in order, no sharing request is sent
   * while they run, and the sharing requests, all PUTs, are sent once at the
   * end, only when the users, every pair and every configuration copy passed
   * and the lists have equal length.
   */
  lemma RunSharesLast(env: Env, sources: seq<ProjectInfo>, destinations: seq<ProjectInfo>, rsyncOnly: bool, st: RunState)
    requires |st.idMaps| <= |sources| && |st.idMaps| <= |destinations|
    ensures var r := Run(env, sources, destinations, rsyncOnly, st);
            var pairs := RunPairs(env, sources, destinations, rsyncOnly, st, 0);
            (CheckDatatypesMatching(env.sourceCreateable, env.destinationCreateable).Fail? ==> r.state == st && r.outcome.Fail?)
            && (CheckDatatypesMatching(env.sourceCreateable, env.destinationCreateable).Pass? && env.createUsers.Fail? ==>
                  r.state == st && r.outcome == env.createUsers)
            && (r.outcome.Fail? ==> PutCount(r.state.walk.requests) == PutCount(st.walk.requests))
            && (r.outcome.Pass? ==>
                  env.createUsers.Pass?
                  && (forall j :: 0 <= j < |sources| ==> env.projectConfigs(sources[j], destinations[j]).Pass?)
                  && PutCount(pairs.state.walk.requests) == PutCount(st.walk.requests)
                  && r.state.walk.requests == pairs.state.walk.requests + SharingRequests(pairs.state.idMaps, pairs.state.walk)
                  && PutCount(SharingRequests(pairs.state.idMaps, pairs.state.walk)) == |SharingRequests(pairs.state.idMaps, pairs.state.walk)|
                  && r.state.walk.trace == st.walk.trace + RunOrder(env, sources, rsyncOnly))
  {
    if CheckDatatypesMatching(env.sourceCreateable, env.destinationCreateable).Pass? && env.createUsers.Pass? {
      RunPairsTrace(env, sources, destinations, rsyncOnly, st, 0);
      var pairs := RunPairs(env, sources, destinations, rsyncOnly, st, 0);
      if pairs.outcome.Pass? {
        forall j | 0 <= j < |st.idMaps|
          ensures env.projectConfigs(sources[j], destinations[j]).Pass?
        {
          RunPairsConfigs(env, sources, destinations, rsyncOnly, st, 0, j);
        }
      }
      SharingRequestsArePuts(pairs.state.idMaps, pairs.state.walk);
      PutCountConcat(pairs.state.walk.requests, SharingRequests(pairs.state.idMaps, pairs.state.walk));
      assert sources[0..|st.idMaps|] == sources || |sources| != |pairs.state.idMaps|;
    }
  }

  /**
   * With lists of different length, the common pairs are all migrated before
   * `zip(strict=True)` raises (unless something raised earlier), and no
   * sharing request is sent.
   */
  lemma RunUnequalLengths(env: Env, sources: seq<ProjectInfo>, destinations: seq<ProjectInfo>, rsyncOnly: bool, st: RunState)
    requires |sources| != |destinations|
    requires |st.idMaps| == (if |sources| < |destinations| then |sources| else |destinations|)
    requires CheckDatatypesMatching(env.sourceCreateable, env.destinationCreateable).Pass?
    ensures var r := Run(env, sources, destinations, rsyncOnly, st);
            r.outcome.Fail?
            && PutCount(r.state.walk.requests) == PutCount(st.walk.requests)
            && (env.createUsers.Pass? && RunPairs(env, sources, destinations, rsyncOnly, st, 0).outcome.Pass? ==>
                  r.outcome.error == UnequalLengths
                  && r.state.walk.trace == st.walk.trace + RunOrder(env, sources[..|st.idMaps|], rsyncOnly))
  {
    RunPairsTrace(env, sources, destinations, rsyncOnly, st, 0);
    var pairs := RunPairs(env, sources, destinations, rsyncOnly, st, 0);
    var r := Run(env, sources, destinations, rsyncOnly, st);
    if env.createUsers.Pass? {
      assert sources[0..|st.idMaps|] == sources[..|st.idMaps|];
      assert r == (if pairs.outcome.Fail? then pairs else Ran(pairs.state, Fail(UnequalLengths)));
      var before, after := st.walk.trace, pairs.state.walk.trace;
      assert after == before + after[|before|..];
    }
  }

  // ---------------------------------------------------------------------------
  // The two steps as written, against the corrected ones the model uses

  /**
   * As written, a pair never gets past its project: the corrected walk goes on
   * to create the first subject of the source project, the program as written
   * raises AttributeError instead.
   */
  lemma RsyncPathStopsEveryPair(env: Env, ctx: Ctx, st: WalkState)
    requires CreateProject(env, ctx, st).outcome.Pass?
    requires env.sourceProjects[ctx.source.id].subjects != []
    ensures var asWritten := CreateResourcesAsWritten(env, ctx, false, st);
            var corrected := CreateResources(env, ctx, false, st);
            asWritten.outcome == Fail(MissingAttribute("rsync_path"))
            && asWritten.state.trace == st.trace + [ProjectStep(ctx.source)]
            && |corrected.state.trace| > |st.trace| + 1
            && corrected.state.trace[|st.trace| + 1] == SubjectStep(env.sourceProjects[ctx.source.id].subjects[0])
  {
    var datatypes := env.destinationDatatypes;
    var w0 := CreateProject(env, ctx, st);
    var ss := env.sourceProjects[ctx.source.id].subjects;
    var w1 := CreateSubject(env, ctx, w0.state, ss[0]);
    var corrected := CreateResources(env, ctx, false, st);
    if w1.outcome.Pass? {
      WalkExperimentsTrace(env, ctx, datatypes, w1.state, ss[0], ss[0].experiments);
      var w2 := WalkExperiments(env, ctx, datatypes, w1.state, ss[0], ss[0].experiments);
      if w2.outcome.Pass? {
        WalkSubjectsTrace(env, ctx, datatypes, w2.state, ss[1..]);
      }
    }
    assert w1.state.trace <= corrected.state.trace;
  }

  /**
   * As written, every run with a sharing request to send raises instead of
   * sending it: the lookup is attempted before any PUT.
   */
  lemma SharingAsWrittenFailsWhenNeeded(idMaps: seq<IdMap>, st: WalkState)
    ensures SharingRequests(idMaps, st) != [] ==> SharingAsWritten(idMaps, st) == Err(MissingAttribute("get_destination_id"))
  {
    var a := TableRequests(XnatType.Subject, st.subjectSharing, st.subjectSharing.keys, idMaps);
    var b := TableRequests(XnatType.Experiment, st.experimentSharing, st.experimentSharing.keys, idMaps);
    var c := TableRequests(XnatType.Assessor, st.assessorSharing, st.assessorSharing.keys, idMaps);
    if a + b + c != [] {
      var q := (a + b + c)[0];
      assert q in a || q in b || q in c;
      assert SharingRequests(idMaps, st) == a + b + c;
      if q in a {
        TableRequestsExact(XnatType.Subject, st.subjectSharing, st.subjectSharing.keys, idMaps);
        var k :| k in st.subjectSharing.keys && ShareOf(XnatType.Subject, st.subjectSharing, k, idMaps, q);
        ShareNeedsMapper(XnatType.Subject, st.subjectSharing, k, idMaps, q);
      } else if q in b {
        TableRequestsExact(XnatType.Experiment, st.experimentSharing, st.experimentSharing.keys, idMaps);
        var k :| k in st.experimentSharing.keys && ShareOf(XnatType.Experiment, st.experimentSharing, k, idMaps, q);
        ShareNeedsMapper(XnatType.Experiment, st.experimentSharing, k, idMaps, q);
      } else {
        TableRequestsExact(XnatType.Assessor, st.assessorSharing, st.assessorSharing.keys, idMaps);
        var k :| k in st.assessorSharing.keys && ShareOf(XnatType.Assessor, st.assessorSharing, k, idMaps, q);
        ShareNeedsMapper(XnatType.Assessor, st.assessorSharing, k, idMaps, q);
      }
    }
  }

  /** A sharing request needs a mapper that knows the entry's identifier. */
  lemma ShareNeedsMapper(kind: XnatType, t: SharingTable, key: string, idMaps: seq<IdMap>, q: Request)
    requires ShareOf(kind, t, key, idMaps, q)
    ensures idMaps != []
  {
  }

  /**
   * One subject shared into a second project, whose identifier the first
   * mapper knows: the corrected step sends its PUT, the step as written raises.
   */
  lemma GetDestinationIdMissing()
    ensures var idMaps := [map[XnatType.Subject := map["S1" := "D1"]]];
            var t := Collect(EmptyTable, "S", "S", SharingRecord(None, [], "S1", None), Participant("P2"), "S1");
            var st := WalkState(map[], Counters(0, 0, 0, 0), t, EmptyTable, EmptyTable, [], []);
            SharingAsWritten(idMaps, st) == Err(MissingAttribute("get_destination_id"))
            && SharingRequests(idMaps, st) == [Put(XnatType.Subject, None, "D1", "P2", "S")]
  {
    var idMaps := [map[XnatType.Subject := map["S1" := "D1"]]];
    var t := Collect(EmptyTable, "S", "S", SharingRecord(None, [], "S1", None), Participant("P2"), "S1");
    var rec := SharingRecord(None, ["P2"], "S1", None);
    assert ApplyClaim(SharingRecord(None, [], "S1", None), Participant("P2"), "S1") == rec;
    assert t == SharingTable(["S"], map["S" := 0], [rec]);
    assert RecordAt(t, "S") == Some(rec);
    assert FindDestinationId(idMaps, "S1", XnatType.Subject) == Some("D1");
    assert Shares(XnatType.Subject, None, "D1", ["P2"], "S") == [Put(XnatType.Subject, None, "D1", "P2", "S")];
  }
}
