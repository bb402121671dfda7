/**
 * The bookkeeping of a migration run (main.py), as functions of values: which
 * records are sent to the destination and in what order, which identifiers are
 * recorded, what is remembered for sharing, and which sharing requests close
 * the run. The destination server itself is not modelled: what the client
 * sees of it is a function of the requests it has sent so far.
 */
module MigrationSpec {
  import opened Common
  import opened Strings
  import opened XmlMapper

  // ---------------------------------------------------------------------------
  // The source tree

  /** A source record: its identifier, its label (`name`) and its XML document. */
  datatype SourceScan = SourceScan(id: string, record: Element)
  datatype SourceAssessor = SourceAssessor(id: string, name: string, record: Element)
  datatype SourceExperiment = SourceExperiment(
    id: string, name: string, xsiType: string, record: Element,
    scans: seq<SourceScan>, assessors: seq<SourceAssessor>)
  datatype SourceSubject = SourceSubject(id: string, name: string, record: Element, experiments: seq<SourceExperiment>)
  datatype SourceProject = SourceProject(record: Element, subjects: seq<SourceSubject>)

  /** `root.attrib["project"]`: the project owning a record; KeyError when the attribute is absent. */
  function Owner(record: Element): Result<string> {
    if "project" in record.attrib then Ok(record.attrib["project"]) else Err(MissingKey("project"))
  }

  // ---------------------------------------------------------------------------
  // What the client sees of the destination

  /** A listing of the destination: the projects, or the children of one project, subject or experiment. */
  datatype Parent =
    | Projects
    | Subjects(project: string)
    | Experiments(project: string, subject: string)
    | Scans(project: string, subject: string, experiment: string)
    | Assessors(project: string, subject: string, experiment: string)

  /** Each listing maps the key it is indexed by (a label, or a scan identifier) to the destination identifier. */
  datatype Dest = Dest(listings: map<Parent, map<string, string>>)

  function Entries(d: Dest, p: Parent): map<string, string> {
    if p in d.listings then d.listings[p] else map[]
  }

  /**
   * `projects[p].subjects[s].experiments[e]...`: every step of the path raises
   * KeyError when its key is not listed by the step before.
   */
  function Listing(d: Dest, p: Parent): Result<map<string, string>> {
    match p
    case Projects => Ok(Entries(d, p))
    case Subjects(pr) =>
      if pr !in Entries(d, Projects) then Err(MissingKey(pr))
      else Ok(Entries(d, p))
    case Experiments(pr, s) =>
      if pr !in Entries(d, Projects) then Err(MissingKey(pr))
      else if s !in Entries(d, Subjects(pr)) then Err(MissingKey(s))
      else Ok(Entries(d, p))
    case Scans(pr, s, e) => ExperimentChild(d, p, pr, s, e)
    case Assessors(pr, s, e) => ExperimentChild(d, p, pr, s, e)
  }

  /** The listing `p` of the children of experiment `e` of subject `s` of project `pr`. */
  function ExperimentChild(d: Dest, p: Parent, pr: string, s: string, e: string): Result<map<string, string>> {
    if pr !in Entries(d, Projects) then Err(MissingKey(pr))
    else if s !in Entries(d, Subjects(pr)) then Err(MissingKey(s))
    else if e !in Entries(d, Experiments(pr, s)) then Err(MissingKey(e))
    else Ok(Entries(d, p))
  }

  /** `listing[key].id`, KeyError along the path or at the key itself. */
  function LookupId(d: Dest, p: Parent, key: string): Result<string> {
    var listed :- Listing(d, p);
    if key in listed then Ok(listed[key]) else Err(MissingKey(key))
  }

  /** What the client sends to the destination. */
  datatype Request =
    | Post(parent: Parent, body: Element)                    // create a record under a listing
    | Refresh(parent: Parent)                                // `clearcache()` of a listing
    | Put(kind: XnatType, owner: Option<string>, id: string, project: string, name: string)
                                                             // share `id` of `owner` into `project` under the label `name`

  /** The creation requests of a request log, in order. */
  function Posts(rs: seq<Request>): seq<Request> {
    if rs == [] then [] else Posts(rs[..|rs| - 1]) + (if rs[|rs| - 1].Post? then [rs[|rs| - 1]] else [])
  }

  /** The number of sharing requests in a request log. */
  function PutCount(rs: seq<Request>): nat {
    if rs == [] then 0 else PutCount(rs[..|rs| - 1]) + (if rs[|rs| - 1].Put? then 1 else 0)
  }

  /**
   * Both servers as the run sees them: the createable datatypes of each, the
   * source projects, the datatypes the destination declares, and the listings
   * the destination reports after a given log of requests. Two steps of `run`
   * that talk only to parts of the servers this model leaves out are given by
   * whether they raise: `_create_users` (ValueError on a profile id mismatch,
   * main.py:250-252, or an error from the user POSTs) and, per project pair,
   * `_set_project_configs` (RuntimeError, main.py:210-211 and 228-230).
   */
  datatype Env = Env(
    sourceCreateable: seq<string>,
    destinationCreateable: seq<string>,
    sourceProjects: map<string, SourceProject>,
    destinationDatatypes: seq<string>,
    server: seq<Request> -> Dest,
    createUsers: Outcome,
    projectConfigs: (ProjectInfo, ProjectInfo) -> Outcome)

  // ---------------------------------------------------------------------------
  // Sharing tables: dictionaries of mutable dictionaries

  /** One sharing entry: `{"owner", "projects", "source_id", "label"}`. */
  datatype SharingRecord = SharingRecord(owner: Option<string>, projects: seq<string>, sourceId: string, name: Option<string>)

  /**
   * A Python dictionary from keys to sharing entries, with the entries as
   * objects: `keys` in insertion order, `refs` from key to object, `records`
   * the objects. Two keys naming one object see each other's updates.
   */
  datatype SharingTable = SharingTable(keys: seq<string>, refs: map<string, nat>, records: seq<SharingRecord>)

  const EmptyTable: SharingTable := SharingTable([], map[], [])

  /** Every key is listed once, in `refs` exactly when in `keys`, and names an existing object. */
  ghost predicate ValidTable(t: SharingTable) {
    (forall k :: k in t.refs <==> k in t.keys)
    && (forall i, j :: 0 <= i < j < |t.keys| ==> t.keys[i] != t.keys[j])
    && (forall k :: k in t.refs ==> t.refs[k] < |t.records|)
  }

  /** `table.get(key)`: the entry reached from `key`. */
  function RecordAt(t: SharingTable, key: string): Option<SharingRecord> {
    if key in t.refs && t.refs[key] < |t.records| then Some(t.records[t.refs[key]]) else None
  }

  /** How one create call changes the entry it collects. */
  datatype Claim =
    | Participant(project: string)               // a non-owning project joins the entry's project list
    | Ownership(project: string, name: string)  // the owning project claims the entry

  function ApplyClaim(r: SharingRecord, c: Claim, sourceId: string): SharingRecord {
    match c
    case Participant(p) => r.(projects := r.projects + [p], sourceId := sourceId)
    case Ownership(p, l) => r.(owner := Some(p), name := Some(l), sourceId := sourceId)
  }

  /**
   * `info = table.get(getKey, default)`, `info` changed by the claim, then
   * `table[storeKey] = info`. The object found under `getKey` is changed in
   * place; without one, a fresh object is made from `default`.
   */
  function Collect(t: SharingTable, getKey: string, storeKey: string, default: SharingRecord, c: Claim, sourceId: string): SharingTable {
    var found := getKey in t.refs && t.refs[getKey] < |t.records|;
    var ref := if found then t.refs[getKey] else |t.records|;
    var objects := if found then t.records else t.records + [default];
    SharingTable(
      if storeKey in t.refs then t.keys else t.keys + [storeKey],
      t.refs[storeKey := ref],
      objects[ref := ApplyClaim(objects[ref], c, sourceId)])
  }

  // ---------------------------------------------------------------------------
  // The state a migration changes

  /** `subj_failed_count`, `exp_failed_count`, `scan_failed_count`, `assess_failed_count`. */
  datatype Counters = Counters(subject: nat, experiment: nat, scan: nat, assessor: nat)

  /** One create call, with the records it was called for. */
  datatype Step =
    | ProjectStep(source: ProjectInfo)
    | SubjectStep(subject: SourceSubject)
    | ExperimentStep(subject: SourceSubject, experiment: SourceExperiment)
    | ScanStep(subject: SourceSubject, experiment: SourceExperiment, scan: SourceScan)
    | AssessorStep(subject: SourceSubject, experiment: SourceExperiment, assessor: SourceAssessor)

  /**
   * What one project pair's work changes: the identifier table of the mapper in
   * use, the failure counters, the three sharing tables, the requests sent to
   * the destination and the create calls made, in order.
   */
  datatype WalkState = WalkState(
    idMap: IdMap,
    failed: Counters,
    subjectSharing: SharingTable,
    experimentSharing: SharingTable,
    assessorSharing: SharingTable,
    requests: seq<Request>,
    trace: seq<Step>)

  /** The state reached and whether an exception escaped; on failure, the state when it was raised. */
  datatype Walked = Walked(state: WalkState, outcome: Outcome)

  /** The project pair in use. */
  datatype Ctx = Ctx(source: ProjectInfo, destination: ProjectInfo)

  function View(env: Env, st: WalkState): Dest {
    env.server(st.requests)
  }

  function Send(st: WalkState, r: Request): WalkState {
    st.(requests := st.requests + [r])
  }

  function Visit(st: WalkState, s: Step): WalkState {
    st.(trace := st.trace + [s])
  }

  function Bump(st: WalkState, kind: XnatType): WalkState {
    var c := st.failed;
    st.(failed := match kind
                  case Subject => c.(subject := c.subject + 1)
                  case Experiment => c.(experiment := c.experiment + 1)
                  case Scan => c.(scan := c.scan + 1)
                  case _ => c.(assessor := c.assessor + 1))
  }

  /** `update_id_map` for a kind it accepts. */
  function Remember(st: WalkState, source: string, destination: string, kind: XnatType): WalkState
    requires kind in IdsToMap
  {
    st.(idMap := UpdatedIdMap(st.idMap, source, destination, kind).value)
  }

  // ---------------------------------------------------------------------------
  // The steps every create call shares

  /** `listing.clearcache()`: the path to the listing is evaluated first and may raise. */
  function RefreshListing(env: Env, st: WalkState, p: Parent): (r: Walked)
    ensures r.state == st.(requests := r.state.requests)
  {
    match Listing(View(env, st), p)
    case Err(e) => Walked(st, Fail(e))
    case Ok(_) => Walked(Send(st, Refresh(p)), Pass)
  }

  /** POST `body` under `p` unless `key` is already listed there, then clear that listing's cache. */
  function PostIfAbsent(env: Env, st: WalkState, p: Parent, key: string, body: Element): (r: Walked)
    ensures r.state == st.(requests := r.state.requests)
  {
    match Listing(View(env, st), p)
    case Err(e) => Walked(st, Fail(e))
    case Ok(listed) =>
      RefreshListing(env, if key in listed then st else Send(st, Post(p, body)), p)
  }

  /** `map_xml` on the source record, then `PostIfAbsent`. */
  function Upload(env: Env, ctx: Ctx, st: WalkState, record: Element, kind: XnatType, p: Parent, key: string): (r: Walked)
    ensures r.state == st.(requests := r.state.requests)
  {
    match MapXmlSpec(ctx.source, ctx.destination, st.idMap, record, kind)
    case Err(e) => Walked(st, Fail(e))
    case Ok(body) => PostIfAbsent(env, st, p, key, body)
  }

  /** The id-map update of subjects: a failed lookup is counted under `kind` and goes no further. */
  function RememberOrCount(env: Env, st: WalkState, p: Parent, name: string, sourceId: string, kind: XnatType): (r: WalkState)
    requires kind in IdsToMap
    ensures r.requests == st.requests && r.trace == st.trace
  {
    match LookupId(View(env, st), p, name)
    case Err(_) => Bump(st, kind)
    case Ok(id) => Remember(st, sourceId, id, kind)
  }

  /**
   * The id-map update of experiments and assessors: on a failed lookup the
   * counter of `kind` goes up, the listing is refreshed and the lookup tried
   * once more, whose failure escapes.
   */
  function RememberWithRetry(env: Env, st: WalkState, p: Parent, name: string, sourceId: string, kind: XnatType): (r: Walked)
    requires kind in IdsToMap
    ensures r.state == st.(requests := r.state.requests, idMap := r.state.idMap, failed := r.state.failed)
  {
    match LookupId(View(env, st), p, name)
    case Ok(id) => Walked(Remember(st, sourceId, id, kind), Pass)
    case Err(_) =>
      var w := RefreshListing(env, Bump(st, kind), p);
      if w.outcome.Fail? then w
      else match LookupId(View(env, w.state), p, name)
        case Err(e) => Walked(w.state, Fail(e))
        case Ok(id) => Walked(Remember(w.state, sourceId, id, kind), Pass)
  }

  // ---------------------------------------------------------------------------
  // The create calls

  /** `_create_project`: map the project record, POST it when the project is not listed, record the pair. */
  function CreateProject(env: Env, ctx: Ctx, st: WalkState): (r: Walked)
    ensures r.state.trace == st.trace + [ProjectStep(ctx.source)]
    ensures r.outcome.Pass? ==> ctx.source.id in env.sourceProjects
  {
    var st0 := Visit(st, ProjectStep(ctx.source));
    if ctx.source.id !in env.sourceProjects then
      Walked(st0, Fail(SourceNotFound(ctx.source.id)))
    else
      var w := Upload(env, ctx, st0, env.sourceProjects[ctx.source.id].record, Project, Projects, ctx.destination.id);
      if w.outcome.Fail? then w
      else Walked(Remember(w.state, ctx.source.id, ctx.destination.id, Project), Pass)
  }

  /** `_create_subject` */
  function CreateSubject(env: Env, ctx: Ctx, st: WalkState, s: SourceSubject): (r: Walked)
    ensures r.state.trace == st.trace + [SubjectStep(s)]
  {
    var st0 := Visit(st, SubjectStep(s));
    var d := ctx.destination.id;
    match Owner(s.record)
    case Err(e) => Walked(st0, Fail(e))
    case Ok(owner) =>
      var default := SharingRecord(None, [], s.id, None);
      if owner != ctx.source.id then
        Walked(st0.(subjectSharing := Collect(st0.subjectSharing, s.name, s.name, default, Participant(d), s.id)), Pass)
      else
        var st1 := st0.(subjectSharing := Collect(st0.subjectSharing, s.name, s.name, default, Ownership(d, s.name), s.id));
        var w := Upload(env, ctx, st1, s.record, XnatType.Subject, Subjects(d), s.name);
        if w.outcome.Fail? then w
        else Walked(RememberOrCount(env, w.state, Subjects(d), s.name, s.id, XnatType.Subject), Pass)
  }

  /** `_create_experiment`: the entry is read under the identifier but stored under the label. */
  function CreateExperiment(env: Env, ctx: Ctx, st: WalkState, s: SourceSubject, e: SourceExperiment): (r: Walked)
    ensures r.state.trace == st.trace + [ExperimentStep(s, e)]
  {
    var st0 := Visit(st, ExperimentStep(s, e));
    var d := ctx.destination.id;
    match Owner(e.record)
    case Err(err) => Walked(st0, Fail(err))
    case Ok(owner) =>
      var default := SharingRecord(None, [], e.id, None);
      if owner != ctx.source.id then
        Walked(st0.(experimentSharing := Collect(st0.experimentSharing, e.id, e.name, default, Participant(d), e.id)), Pass)
      else
        var st1 := st0.(experimentSharing := Collect(st0.experimentSharing, e.id, e.name, default, Ownership(d, e.name), e.id));
        var w := Upload(env, ctx, st1, e.record, XnatType.Experiment, Experiments(d, s.name), e.name);
        if w.outcome.Fail? then w
        else RememberWithRetry(env, w.state, Experiments(d, s.name), e.name, e.id, XnatType.Experiment)
  }

  /** `_create_scan`: nothing happens for a scan of an experiment another project owns. */
  function CreateScan(env: Env, ctx: Ctx, st: WalkState, s: SourceSubject, e: SourceExperiment, scan: SourceScan): (r: Walked)
    ensures r.state.trace == st.trace + [ScanStep(s, e, scan)]
  {
    var st0 := Visit(st, ScanStep(s, e, scan));
    match Owner(e.record)
    case Err(err) => Walked(st0, Fail(err))
    case Ok(owner) =>
      if owner != ctx.source.id then
        Walked(st0, Pass)
      else
        var w := Upload(env, ctx, st0, scan.record, XnatType.Scan, Scans(ctx.destination.id, s.name, e.name), scan.id);
        if w.outcome.Fail? then w
        else Walked(Remember(w.state, scan.id, scan.id, XnatType.Scan), Pass)
  }

  /** `_create_assessor`: the entry is read under the identifier but stored under the label. */
  function CreateAssessor(env: Env, ctx: Ctx, st: WalkState, s: SourceSubject, e: SourceExperiment, a: SourceAssessor): (r: Walked)
    ensures r.state.trace == st.trace + [AssessorStep(s, e, a)]
  {
    var st0 := Visit(st, AssessorStep(s, e, a));
    var d := ctx.destination.id;
    match Owner(a.record)
    case Err(err) => Walked(st0, Fail(err))
    case Ok(owner) =>
      var default := SharingRecord(None, [], a.id, None);
      if owner != ctx.source.id then
        Walked(st0.(assessorSharing := Collect(st0.assessorSharing, a.id, a.name, default, Participant(d), a.id)), Pass)
      else
        var st1 := st0.(assessorSharing := Collect(st0.assessorSharing, a.id, a.name, default, Ownership(d, a.name), a.id));
        var w := Upload(env, ctx, st1, a.record, XnatType.Assessor, Assessors(d, s.name, e.name), a.name);
        if w.outcome.Fail? then w
        else RememberWithRetry(env, w.state, Assessors(d, s.name, e.name), a.name, a.id, XnatType.Assessor)
  }

  // ---------------------------------------------------------------------------
  // The walk of `_create_resources`: each fold stops at the first exception

  function WalkScans(env: Env, ctx: Ctx, st: WalkState, s: SourceSubject, e: SourceExperiment, scans: seq<SourceScan>): Walked
    decreases |scans|
  {
    if scans == [] then Walked(st, Pass)
    else
      var w := CreateScan(env, ctx, st, s, e, scans[0]);
      if w.outcome.Fail? then w else WalkScans(env, ctx, w.state, s, e, scans[1..])
  }

  function WalkAssessors(env: Env, ctx: Ctx, st: WalkState, s: SourceSubject, e: SourceExperiment, assessors: seq<SourceAssessor>): Walked
    decreases |assessors|
  {
    if assessors == [] then Walked(st, Pass)
    else
      var w := CreateAssessor(env, ctx, st, s, e, assessors[0]);
      if w.outcome.Fail? then w else WalkAssessors(env, ctx, w.state, s, e, assessors[1..])
  }

  /** One experiment: its datatype must be known to the destination; then it, its scans, its assessors. */
  function WalkExperiment(env: Env, ctx: Ctx, datatypes: seq<string>, st: WalkState, s: SourceSubject, e: SourceExperiment): Walked {
    if e.xsiType !in datatypes then
      Walked(st, Fail(UnsupportedDatatype(e.xsiType)))
    else
      var w := CreateExperiment(env, ctx, st, s, e);
      if w.outcome.Fail? then w
      else
        var w1 := WalkScans(env, ctx, w.state, s, e, e.scans);
        if w1.outcome.Fail? then w1 else WalkAssessors(env, ctx, w1.state, s, e, e.assessors)
  }

  function WalkExperiments(env: Env, ctx: Ctx, datatypes: seq<string>, st: WalkState, s: SourceSubject, es: seq<SourceExperiment>): Walked
    decreases |es|
  {
    if es == [] then Walked(st, Pass)
    else
      var w := WalkExperiment(env, ctx, datatypes, st, s, es[0]);
      if w.outcome.Fail? then w else WalkExperiments(env, ctx, datatypes, w.state, s, es[1..])
  }

  function WalkSubject(env: Env, ctx: Ctx, datatypes: seq<string>, st: WalkState, s: SourceSubject): Walked {
    var w := CreateSubject(env, ctx, st, s);
    if w.outcome.Fail? then w else WalkExperiments(env, ctx, datatypes, w.state, s, s.experiments)
  }

  function WalkSubjects(env: Env, ctx: Ctx, datatypes: seq<string>, st: WalkState, ss: seq<SourceSubject>): Walked
    decreases |ss|
  {
    if ss == [] then Walked(st, Pass)
    else
      var w := WalkSubject(env, ctx, datatypes, st, ss[0]);
      if w.outcome.Fail? then w else WalkSubjects(env, ctx, datatypes, w.state, ss[1..])
  }

  /** `_create_resources`: the project, then (unless only files are copied) the whole tree. */
  function CreateResources(env: Env, ctx: Ctx, rsyncOnly: bool, st: WalkState): Walked {
    var w := CreateProject(env, ctx, st);
    if w.outcome.Fail? || rsyncOnly then w
    else WalkSubjects(env, ctx, env.destinationDatatypes, w.state, env.sourceProjects[ctx.source.id].subjects)
  }

  // ---------------------------------------------------------------------------
  // The order the walk visits the tree in

  function ScanSteps(s: SourceSubject, e: SourceExperiment, scans: seq<SourceScan>): seq<Step> {
    seq(|scans|, i requires 0 <= i < |scans| => ScanStep(s, e, scans[i]))
  }

  function AssessorSteps(s: SourceSubject, e: SourceExperiment, assessors: seq<SourceAssessor>): seq<Step> {
    seq(|assessors|, i requires 0 <= i < |assessors| => AssessorStep(s, e, assessors[i]))
  }

  function ExperimentOrder(s: SourceSubject, e: SourceExperiment): seq<Step> {
    [ExperimentStep(s, e)] + ScanSteps(s, e, e.scans) + AssessorSteps(s, e, e.assessors)
  }

  function ExperimentsOrder(s: SourceSubject, es: seq<SourceExperiment>): seq<Step> {
    if es == [] then [] else ExperimentOrder(s, es[0]) + ExperimentsOrder(s, es[1..])
  }

  function SubjectOrder(s: SourceSubject): seq<Step> {
    [SubjectStep(s)] + ExperimentsOrder(s, s.experiments)
  }

  /** Every create call of a tree, parents before children, scans before assessors, in listing order. */
  function SubjectsOrder(ss: seq<SourceSubject>): seq<Step> {
    if ss == [] then [] else SubjectOrder(ss[0]) + SubjectsOrder(ss[1..])
  }

  // ---------------------------------------------------------------------------
  // The datatype check

  /** The createable element names, without the `xdat:` ones. */
  function Enabled(names: seq<string>): set<string> {
    set n | n in names && !StartsWith(n, "xdat:")
  }

  /** `check_datatypes_matching` */
  function CheckDatatypesMatching(source: seq<string>, destination: seq<string>): Outcome {
    if Enabled(source) <= Enabled(destination) then Pass
    else Fail(MissingDatatypes(Enabled(source) - Enabled(destination)))
  }

  // ---------------------------------------------------------------------------
  // Sharing and the run

  /** The first mapper, in list order, whose table holds `sourceId` under `kind`. */
  function FindDestinationId(idMaps: seq<IdMap>, sourceId: string, kind: XnatType): Option<string>
    decreases |idMaps|
  {
    if idMaps == [] then None
    else match GetDestinationId(idMaps[0], sourceId, kind)
      case Ok(id) => Some(id)
      case Err(_) => FindDestinationId(idMaps[1..], sourceId, kind)
  }

  /** One PUT per participating project, in the order the projects joined. */
  function Shares(kind: XnatType, owner: Option<string>, id: string, projects: seq<string>, name: string): seq<Request> {
    seq(|projects|, i requires 0 <= i < |projects| => Put(kind, owner, id, projects[i], name))
  }

  /** The requests for one entry: none when no mapper knows its destination identifier. */
  function EntryRequests(kind: XnatType, name: string, entry: Option<SharingRecord>, idMaps: seq<IdMap>): seq<Request> {
    match entry
    case None => []
    case Some(rec) =>
      match FindDestinationId(idMaps, rec.sourceId, kind)
      case None => []
      case Some(id) => Shares(kind, rec.owner, id, rec.projects, name)
  }

  function TableRequests(kind: XnatType, t: SharingTable, keys: seq<string>, idMaps: seq<IdMap>): seq<Request>
    decreases |keys|
  {
    if keys == [] then []
    else EntryRequests(kind, keys[0], RecordAt(t, keys[0]), idMaps) + TableRequests(kind, t, keys[1..], idMaps)
  }

  /** `_apply_sharing`: subjects, then experiments, then assessors, each table in insertion order. */
  function SharingRequests(idMaps: seq<IdMap>, st: WalkState): seq<Request> {
    TableRequests(XnatType.Subject, st.subjectSharing, st.subjectSharing.keys, idMaps)
    + TableRequests(XnatType.Experiment, st.experimentSharing, st.experimentSharing.keys, idMaps)
    + TableRequests(XnatType.Assessor, st.assessorSharing, st.assessorSharing.keys, idMaps)
  }

  // ---------------------------------------------------------------------------
  // Two steps as the program writes them (see the lemmas in MigrationProperties)

  /**
   * `_create_resources` as written: after the project, the rsync step reads
   * `rsync_path` from the project descriptions, a field `ProjectInfo` does not
   * declare, so every pair raises AttributeError there, before any subject.
   */
  function CreateResourcesAsWritten(env: Env, ctx: Ctx, rsyncOnly: bool, st: WalkState): (r: Walked) {
    var w := CreateProject(env, ctx, st);
    if w.outcome.Fail? then w else Walked(w.state, Fail(MissingAttribute("rsync_path")))
  }

  /**
   * `_apply_sharing` as written: `mapper.get_destination_id` is not a method of
   * XMLMapper, so the first entry of a non-empty table, once there is a mapper
   * to ask, raises AttributeError, which `except KeyError` does not catch. No
   * PUT has been sent by then.
   */
  function SharingAsWritten(idMaps: seq<IdMap>, st: WalkState): (r: Result<seq<Request>>) {
    if idMaps != [] && (st.subjectSharing.keys != [] || st.experimentSharing.keys != [] || st.assessorSharing.keys != [])
    then Err(MissingAttribute("get_destination_id"))
    else Ok(SharingRequests(idMaps, st))
  }

  /** A whole run: one identifier table per mapper and the state shared by all pairs. */
  datatype RunState = RunState(idMaps: seq<IdMap>, walk: WalkState)
  datatype Ran = Ran(state: RunState, outcome: Outcome)

  /**
   * The pair loop of `run` from pair `i` on: mapper `i` is used, and its table
   * kept, for pair `i`; after its resources the pair's configuration is copied.
   */
  function RunPairs(env: Env, sources: seq<ProjectInfo>, destinations: seq<ProjectInfo>, rsyncOnly: bool, st: RunState, i: nat): Ran
    decreases |st.idMaps| - i
  {
    if i >= |st.idMaps| || i >= |sources| || i >= |destinations| then Ran(st, Pass)
    else
      var w := CreateResources(env, Ctx(sources[i], destinations[i]), rsyncOnly, st.walk.(idMap := st.idMaps[i]));
      var next := RunState(st.idMaps[i := w.state.idMap], w.state);
      if w.outcome.Fail? then Ran(next, w.outcome)
      else if env.projectConfigs(sources[i], destinations[i]).Fail? then Ran(next, env.projectConfigs(sources[i], destinations[i]))
      else RunPairs(env, sources, destinations, rsyncOnly, next, i + 1)
  }

  /**
   * `run`: the datatype check, the users, every pair in order, and the
   * sharing requests once at the end. `zip(strict=True)` raises only once the shortest list is
   * used up, so unequal lists still migrate their common pairs.
   */
  function Run(env: Env, sources: seq<ProjectInfo>, destinations: seq<ProjectInfo>, rsyncOnly: bool, st: RunState): Ran {
    match CheckDatatypesMatching(env.sourceCreateable, env.destinationCreateable)
    case Fail(e) => Ran(st, Fail(e))
    case Pass =>
      if env.createUsers.Fail? then Ran(st, env.createUsers) else
      var r := RunPairs(env, sources, destinations, rsyncOnly, st, 0);
      if r.outcome.Fail? then r
      else if |sources| != |r.state.idMaps| || |destinations| != |r.state.idMaps| then Ran(r.state, Fail(UnequalLengths))
      else Ran(r.state.(walk := r.state.walk.(requests := r.state.walk.requests + SharingRequests(r.state.idMaps, r.state.walk))), Pass)
  }
}
