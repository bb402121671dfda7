/**
 * The `Migration` object of main.py: the project pairs, one mapper per pair,
 * the pair in use, the failure counters and the three sharing tables, changed
 * in place by the create calls. Every method is proved to do what the
 * function of the same name in `MigrationSpec` says, on the state `Local()`
 * (or `Global()` for the whole run) that the object holds.
 */
module Migration {
  import opened Common
  import opened XmlMapper
  import opened MigrationSpec

  /** The identifier tables of a list of mappers, in list order. */
  ghost function IdMapsOf(ms: seq<XMLMapper>): (r: seq<IdMap>)
    reads ms
    ensures |r| == |ms|
    ensures forall j :: 0 <= j < |ms| ==> r[j] == ms[j].idMap
  {
    if ms == [] then [] else [ms[0].idMap] + IdMapsOf(ms[1..])
  }

  class Migration {
    /** Both servers (`source_conn`, `destination_conn`) as the run sees them. */
    const env: Env
    const allSourceInfo: seq<ProjectInfo>
    const allDestinationInfo: seq<ProjectInfo>
    const rsyncOnly: bool
    const mappers: seq<XMLMapper>

    /** The pair in use and its mapper. */
    var mapper: XMLMapper
    var sourceInfo: ProjectInfo
    var destinationInfo: ProjectInfo

    var subjectFailed: nat
    var experimentFailed: nat
    var scanFailed: nat
    var assessorFailed: nat

    var subjectSharing: SharingTable
    var experimentSharing: SharingTable
    var assessorSharing: SharingTable

    /** The requests sent to the destination so far. */
    var requests: seq<Request>
    /** The create calls made so far. */
    ghost var trace: seq<Step>

    /**
     * One mapper per pair of the shorter list, each for its own pair and no
     * two alike, and the mapper in use is one of them.
     */
    ghost predicate Valid()
      reads this`mapper, this`sourceInfo, this`destinationInfo
    {
      |mappers| == (if |allSourceInfo| < |allDestinationInfo| then |allSourceInfo| else |allDestinationInfo|)
      && (forall i :: 0 <= i < |mappers| ==> mappers[i].source == allSourceInfo[i] && mappers[i].destination == allDestinationInfo[i])
      && (forall i, j :: 0 <= i < j < |mappers| ==> mappers[i] != mappers[j])
      && mapper in mappers && Ready()
    }

    /** The mapper in use maps from the source project in use to the destination project in use. */
    predicate Ready()
      reads this`mapper, this`sourceInfo, this`destinationInfo
    {
      mapper.source == sourceInfo && mapper.destination == destinationInfo
    }

    function Pair(): Ctx
      reads this
    {
      Ctx(sourceInfo, destinationInfo)
    }

    /** The state one pair's work changes. */
    ghost function Local(): WalkState
      reads this, mapper
    {
      WalkState(mapper.idMap, Counters(subjectFailed, experimentFailed, scanFailed, assessorFailed),
                subjectSharing, experimentSharing, assessorSharing, requests, trace)
    }

    ghost function IdMaps(): seq<IdMap>
      reads mappers
    {
      IdMapsOf(mappers)
    }

    /** The state a whole run changes. */
    ghost function Global(): RunState
      reads this, mapper, mappers
    {
      RunState(IdMaps(), Local())
    }

    /** `__post_init__` for non-empty lists: one fresh mapper per pair, the first pair in use, nothing counted or shared. */
    constructor (env: Env, allSourceInfo: seq<ProjectInfo>, allDestinationInfo: seq<ProjectInfo>, rsyncOnly: bool)
      requires |allSourceInfo| > 0 && |allDestinationInfo| > 0
      ensures Valid()
      ensures this.env == env && this.allSourceInfo == allSourceInfo && this.allDestinationInfo == allDestinationInfo
      ensures this.rsyncOnly == rsyncOnly
      ensures forall i :: 0 <= i < |mappers| ==> fresh(mappers[i]) && mappers[i].idMap == map[]
      ensures mapper == mappers[0] && sourceInfo == allSourceInfo[0] && destinationInfo == allDestinationInfo[0]
      ensures subjectFailed == 0 && experimentFailed == 0 && scanFailed == 0 && assessorFailed == 0
      ensures subjectSharing == EmptyTable && experimentSharing == EmptyTable && assessorSharing == EmptyTable
      ensures requests == [] && trace == []
    {
      var n := if |allSourceInfo| < |allDestinationInfo| then |allSourceInfo| else |allDestinationInfo|;
      var ms: seq<XMLMapper> := [];
      var i := 0;
      while i < n
        invariant 0 <= i <= n && |ms| == i
        invariant forall k :: 0 <= k < i ==> ms[k].source == allSourceInfo[k] && ms[k].destination == allDestinationInfo[k]
        invariant forall k :: 0 <= k < i ==> fresh(ms[k]) && ms[k].idMap == map[]
        invariant forall k, j :: 0 <= k < j < i ==> ms[k] != ms[j]
      {
        var m := new XMLMapper(allSourceInfo[i], allDestinationInfo[i]);
        ms := ms + [m];
        i := i + 1;
      }
      this.env := env;
      this.allSourceInfo := allSourceInfo;
      this.allDestinationInfo := allDestinationInfo;
      this.rsyncOnly := rsyncOnly;
      mappers := ms;
      mapper := ms[0];
      sourceInfo := allSourceInfo[0];
      destinationInfo := allDestinationInfo[0];
      subjectFailed, experimentFailed, scanFailed, assessorFailed := 0, 0, 0, 0;
      subjectSharing, experimentSharing, assessorSharing := EmptyTable, EmptyTable, EmptyTable;
      requests := [];
      trace := [];
    }

    /** `Migration(...)`: `__post_init__` raises IndexError when either list is empty. */
    static method Create(env: Env, allSourceInfo: seq<ProjectInfo>, allDestinationInfo: seq<ProjectInfo>, rsyncOnly: bool)
      returns (r: Result<Migration>)
      ensures r.Err? <==> |allSourceInfo| == 0 || |allDestinationInfo| == 0
      ensures r.Err? ==> r.error == EmptyProjectList
      ensures r.Ok? ==> fresh(r.value) && r.value.Valid() && r.value.requests == [] && r.value.trace == []
    {
      if |allSourceInfo| == 0 || |allDestinationInfo| == 0 {
        return Err(EmptyProjectList);
      }
      var m := new Migration(env, allSourceInfo, allDestinationInfo, rsyncOnly);
      return Ok(m);
    }

    // -------------------------------------------------------------------------
    // The steps every create call shares

    /** `listing.clearcache()` */
    method RefreshListing(p: Parent) returns (r: Outcome)
      modifies this`requests
      ensures Local() == MigrationSpec.RefreshListing(env, old(Local()), p).state
      ensures r == MigrationSpec.RefreshListing(env, old(Local()), p).outcome
    {
      var listed := Listing(env.server(requests), p);
      if listed.Err? {
        return Fail(listed.error);
      }
      requests := requests + [Refresh(p)];
      return Pass;
    }

    method PostIfAbsent(p: Parent, key: string, body: Element) returns (r: Outcome)
      modifies this`requests
      ensures Local() == MigrationSpec.PostIfAbsent(env, old(Local()), p, key, body).state
      ensures r == MigrationSpec.PostIfAbsent(env, old(Local()), p, key, body).outcome
    {
      var listed := Listing(env.server(requests), p);
      if listed.Err? {
        return Fail(listed.error);
      }
      if key !in listed.value {
        requests := requests + [Post(p, body)];
      }
      r := RefreshListing(p);
    }

    /** `mapper.map_xml(root, kind)`, then `PostIfAbsent`. */
    method Upload(record: Element, kind: XnatType, p: Parent, key: string) returns (r: Outcome)
      requires Ready()
      modifies this`requests
      ensures Local() == MigrationSpec.Upload(env, Pair(), old(Local()), record, kind, p, key).state
      ensures r == MigrationSpec.Upload(env, Pair(), old(Local()), record, kind, p, key).outcome
    {
      var mapped := mapper.MapXml(record, kind);
      if mapped.Err? {
        return Fail(mapped.error);
      }
      r := PostIfAbsent(p, key, mapped.value);
    }

    /** `self.<kind>_failed_count += 1` */
    method CountFailure(kind: XnatType)
      modifies this`subjectFailed, this`experimentFailed, this`scanFailed, this`assessorFailed
      ensures Local() == Bump(old(Local()), kind)
    {
      match kind
      case Subject => subjectFailed := subjectFailed + 1;
      case Experiment => experimentFailed := experimentFailed + 1;
      case Scan => scanFailed := scanFailed + 1;
      case _ => assessorFailed := assessorFailed + 1;
    }

    /** The read-back of subjects: `KeyError` is counted and swallowed. */
    method RememberOrCount(p: Parent, name: string, sourceId: string, kind: XnatType)
      requires kind in IdsToMap
      modifies this`subjectFailed, this`experimentFailed, this`scanFailed, this`assessorFailed, mapper
      ensures Local() == MigrationSpec.RememberOrCount(env, old(Local()), p, name, sourceId, kind)
    {
      var id := LookupId(env.server(requests), p, name);
      if id.Err? {
        CountFailure(kind);
      } else {
        var _ := mapper.UpdateIdMap(sourceId, id.value, kind);
      }
    }

    /** The read-back of experiments and assessors, retried once after a refresh. */
    method RememberWithRetry(p: Parent, name: string, sourceId: string, kind: XnatType) returns (r: Outcome)
      requires kind in IdsToMap
      modifies this`requests, this`subjectFailed, this`experimentFailed, this`scanFailed, this`assessorFailed, mapper
      ensures Local() == MigrationSpec.RememberWithRetry(env, old(Local()), p, name, sourceId, kind).state
      ensures r == MigrationSpec.RememberWithRetry(env, old(Local()), p, name, sourceId, kind).outcome
    {
      var id := LookupId(env.server(requests), p, name);
      if id.Err? {
        CountFailure(kind);
        r := RefreshListing(p);
        if r.Fail? {
          return;
        }
        id := LookupId(env.server(requests), p, name);
        if id.Err? {
          return Fail(id.error);
        }
      }
      var _ := mapper.UpdateIdMap(sourceId, id.value, kind);
      return Pass;
    }

    // -------------------------------------------------------------------------
    // The create calls

    /** `_create_project` */
    method CreateProject() returns (r: Outcome)
      requires Ready()
      modifies this`requests, this`trace, mapper
      ensures Local() == MigrationSpec.CreateProject(env, Pair(), old(Local())).state
      ensures r == MigrationSpec.CreateProject(env, Pair(), old(Local())).outcome
    {
      trace := trace + [ProjectStep(sourceInfo)];
      if sourceInfo.id !in env.sourceProjects {
        return Fail(SourceNotFound(sourceInfo.id));
      }
      r := Upload(env.sourceProjects[sourceInfo.id].record, Project, Projects, destinationInfo.id);
      if r.Fail? {
        return;
      }
      var _ := mapper.UpdateIdMap(sourceInfo.id, destinationInfo.id, Project);
    }

    /** `_create_subject` */
    method CreateSubject(s: SourceSubject) returns (r: Outcome)
      requires Ready()
      modifies this`requests, this`trace, this`subjectFailed, this`experimentFailed, this`scanFailed, this`assessorFailed
      modifies this`subjectSharing, mapper
      ensures Local() == MigrationSpec.CreateSubject(env, Pair(), old(Local()), s).state
      ensures r == MigrationSpec.CreateSubject(env, Pair(), old(Local()), s).outcome
    {
      trace := trace + [SubjectStep(s)];
      var d := destinationInfo.id;
      var owner := Owner(s.record);
      if owner.Err? {
        return Fail(owner.error);
      }
      var default := SharingRecord(None, [], s.id, None);
      if owner.value != sourceInfo.id {
        subjectSharing := Collect(subjectSharing, s.name, s.name, default, Participant(d), s.id);
        return Pass;
      }
      subjectSharing := Collect(subjectSharing, s.name, s.name, default, Ownership(d, s.name), s.id);
      r := Upload(s.record, XnatType.Subject, Subjects(d), s.name);
      if r.Fail? {
        return;
      }
      RememberOrCount(Subjects(d), s.name, s.id, XnatType.Subject);
    }

    /** `_create_experiment` */
    method CreateExperiment(s: SourceSubject, e: SourceExperiment) returns (r: Outcome)
      requires Ready()
      modifies this`requests, this`trace, this`subjectFailed, this`experimentFailed, this`scanFailed, this`assessorFailed
      modifies this`experimentSharing, mapper
      ensures Local() == MigrationSpec.CreateExperiment(env, Pair(), old(Local()), s, e).state
      ensures r == MigrationSpec.CreateExperiment(env, Pair(), old(Local()), s, e).outcome
    {
      trace := trace + [ExperimentStep(s, e)];
      var d := destinationInfo.id;
      var owner := Owner(e.record);
      if owner.Err? {
        return Fail(owner.error);
      }
      var default := SharingRecord(None, [], e.id, None);
      var claim := if owner.value != sourceInfo.id then Participant(d) else Ownership(d, e.name);
      experimentSharing := Collect(experimentSharing, e.id, e.name, default, claim, e.id);
      if owner.value != sourceInfo.id {
        return Pass;
      }
      r := Upload(e.record, XnatType.Experiment, Experiments(d, s.name), e.name);
      if r.Fail? {
        return;
      }
      r := RememberWithRetry(Experiments(d, s.name), e.name, e.id, XnatType.Experiment);
    }

    /** `_create_scan` */
    method CreateScan(s: SourceSubject, e: SourceExperiment, scan: SourceScan) returns (r: Outcome)
      requires Ready()
      modifies this`requests, this`trace, mapper
      ensures Local() == MigrationSpec.CreateScan(env, Pair(), old(Local()), s, e, scan).state
      ensures r == MigrationSpec.CreateScan(env, Pair(), old(Local()), s, e, scan).outcome
    {
      trace := trace + [ScanStep(s, e, scan)];
      var owner := Owner(e.record);
      if owner.Err? {
        return Fail(owner.error);
      }
      if owner.value != sourceInfo.id {
        return Pass;
      }
      r := Upload(scan.record, XnatType.Scan, Scans(destinationInfo.id, s.name, e.name), scan.id);
      if r.Fail? {
        return;
      }
      var _ := mapper.UpdateIdMap(scan.id, scan.id, XnatType.Scan);
    }

    /** `_create_assessor` */
    method CreateAssessor(s: SourceSubject, e: SourceExperiment, a: SourceAssessor) returns (r: Outcome)
      requires Ready()
      modifies this`requests, this`trace, this`subjectFailed, this`experimentFailed, this`scanFailed, this`assessorFailed
      modifies this`assessorSharing, mapper
      ensures Local() == MigrationSpec.CreateAssessor(env, Pair(), old(Local()), s, e, a).state
      ensures r == MigrationSpec.CreateAssessor(env, Pair(), old(Local()), s, e, a).outcome
    {
      trace := trace + [AssessorStep(s, e, a)];
      var d := destinationInfo.id;
      var owner := Owner(a.record);
      if owner.Err? {
        return Fail(owner.error);
      }
      var default := SharingRecord(None, [], a.id, None);
      var claim := if owner.value != sourceInfo.id then Participant(d) else Ownership(d, a.name);
      assessorSharing := Collect(assessorSharing, a.id, a.name, default, claim, a.id);
      if owner.value != sourceInfo.id {
        return Pass;
      }
      r := Upload(a.record, XnatType.Assessor, Assessors(d, s.name, e.name), a.name);
      if r.Fail? {
        return;
      }
      r := RememberWithRetry(Assessors(d, s.name, e.name), a.name, a.id, XnatType.Assessor);
    }

    // -------------------------------------------------------------------------
    // The walk of `_create_resources`

    /** One experiment of the walk: its datatype must be declared by the destination; then it, its scans, its assessors. */
    method MigrateExperiment(datatypes: seq<string>, s: SourceSubject, e: SourceExperiment) returns (r: Outcome)
      requires Ready()
      modifies this`requests, this`trace, this`subjectFailed, this`experimentFailed, this`scanFailed, this`assessorFailed
      modifies this`subjectSharing, this`experimentSharing, this`assessorSharing, mapper
      ensures Local() == WalkExperiment(env, Pair(), datatypes, old(Local()), s, e).state
      ensures r == WalkExperiment(env, Pair(), datatypes, old(Local()), s, e).outcome
    {
      if e.xsiType !in datatypes {
        return Fail(UnsupportedDatatype(e.xsiType));
      }
      r := CreateExperiment(s, e);
      if r.Fail? {
        return;
      }
      ghost var afterExperiment := Local();
      var k := 0;
      while k < |e.scans|
        invariant 0 <= k <= |e.scans| && r.Pass?
        invariant WalkScans(env, Pair(), afterExperiment, s, e, e.scans) == WalkScans(env, Pair(), Local(), s, e, e.scans[k..])
      {
        assert e.scans[k..][1..] == e.scans[k + 1..];
        r := CreateScan(s, e, e.scans[k]);
        if r.Fail? {
          return;
        }
        k := k + 1;
      }
      ghost var afterScans := Local();
      k := 0;
      while k < |e.assessors|
        invariant 0 <= k <= |e.assessors| && r.Pass?
        invariant WalkAssessors(env, Pair(), afterScans, s, e, e.assessors) == WalkAssessors(env, Pair(), Local(), s, e, e.assessors[k..])
      {
        assert e.assessors[k..][1..] == e.assessors[k + 1..];
        r := CreateAssessor(s, e, e.assessors[k]);
        if r.Fail? {
          return;
        }
        k := k + 1;
      }
    }

    /** One subject of the walk: it, then each of its experiments. */
    method MigrateSubject(datatypes: seq<string>, s: SourceSubject) returns (r: Outcome)
      requires Ready()
      modifies this`requests, this`trace, this`subjectFailed, this`experimentFailed, this`scanFailed, this`assessorFailed
      modifies this`subjectSharing, this`experimentSharing, this`assessorSharing, mapper
      ensures Local() == WalkSubject(env, Pair(), datatypes, old(Local()), s).state
      ensures r == WalkSubject(env, Pair(), datatypes, old(Local()), s).outcome
    {
      r := CreateSubject(s);
      if r.Fail? {
        return;
      }
      ghost var afterSubject := Local();
      var j := 0;
      while j < |s.experiments|
        invariant 0 <= j <= |s.experiments| && r.Pass?
        invariant WalkExperiments(env, Pair(), datatypes, afterSubject, s, s.experiments)
                  == WalkExperiments(env, Pair(), datatypes, Local(), s, s.experiments[j..])
      {
        assert s.experiments[j..][1..] == s.experiments[j + 1..];
        r := MigrateExperiment(datatypes, s, s.experiments[j]);
        if r.Fail? {
          return;
        }
        j := j + 1;
      }
    }

    /** `_create_resources`: the project, then, unless only files are copied, every subject of the source project. */
    method CreateResources() returns (r: Outcome)
      requires Ready()
      modifies this`requests, this`trace, this`subjectFailed, this`experimentFailed, this`scanFailed, this`assessorFailed
      modifies this`subjectSharing, this`experimentSharing, this`assessorSharing, mapper
      ensures Local() == MigrationSpec.CreateResources(env, Pair(), rsyncOnly, old(Local())).state
      ensures r == MigrationSpec.CreateResources(env, Pair(), rsyncOnly, old(Local())).outcome
    {
      r := CreateProject();
      if r.Fail? || rsyncOnly {
        return;
      }
      var datatypes := env.destinationDatatypes;
      var subjects := env.sourceProjects[sourceInfo.id].subjects;
      ghost var afterProject := Local();
      var i := 0;
      while i < |subjects|
        invariant 0 <= i <= |subjects| && r.Pass?
        invariant WalkSubjects(env, Pair(), datatypes, afterProject, subjects)
                  == WalkSubjects(env, Pair(), datatypes, Local(), subjects[i..])
      {
        assert subjects[i..][1..] == subjects[i + 1..];
        r := MigrateSubject(datatypes, subjects[i]);
        if r.Fail? {
          return;
        }
        i := i + 1;
      }
    }

    // -------------------------------------------------------------------------
    // Sharing

    /** The destination identifier from the first mapper that knows `sourceId`, as `_apply_sharing` searches for it. */
    method FindDestination(sourceId: string, kind: XnatType) returns (r: Option<string>)
      ensures r == FindDestinationId(IdMaps(), sourceId, kind)
    {
      var j := 0;
      while j < |mappers|
        invariant 0 <= j <= |mappers|
        invariant FindDestinationId(IdMaps(), sourceId, kind) == FindDestinationId(IdMaps()[j..], sourceId, kind)
      {
        var found := GetDestinationId(mappers[j].idMap, sourceId, kind);
        if found.Ok? {
          return Some(found.value);
        }
        assert IdMaps()[j..][1..] == IdMaps()[j + 1..];
        j := j + 1;
      }
      return None;
    }

    /** One PUT per project of the entry; a failing PUT is only logged, so every one is sent. */
    method ShareEntry(kind: XnatType, owner: Option<string>, id: string, projects: seq<string>, name: string)
      modifies this`requests
      ensures requests == old(requests) + Shares(kind, owner, id, projects, name)
    {
      var k := 0;
      while k < |projects|
        invariant 0 <= k <= |projects|
        invariant requests == old(requests) + Shares(kind, owner, id, projects[..k], name)
      {
        requests := requests + [Put(kind, owner, id, projects[k], name)];
        assert Shares(kind, owner, id, projects[..k + 1], name)
               == Shares(kind, owner, id, projects[..k], name) + [Put(kind, owner, id, projects[k], name)];
        k := k + 1;
      }
      assert projects[..k] == projects;
    }

    /** One entry of a sharing table: its PUTs, or none when no mapper knows its destination identifier. */
    method ShareRecord(kind: XnatType, t: SharingTable, name: string)
      modifies this`requests
      ensures requests == old(requests) + EntryRequests(kind, name, RecordAt(t, name), IdMaps())
    {
      var entry := RecordAt(t, name);
      if entry.Some? {
        var id := FindDestination(entry.value.sourceId, kind);
        if id.Some? {
          ShareEntry(kind, entry.value.owner, id.value, entry.value.projects, name);
        }
      }
    }

    /** Every entry of one sharing table, in insertion order; an entry no mapper knows is skipped. */
    method ShareTable(kind: XnatType, t: SharingTable)
      modifies this`requests
      ensures requests == old(requests) + TableRequests(kind, t, t.keys, IdMaps())
    {
      var i := 0;
      while i < |t.keys|
        invariant 0 <= i <= |t.keys|
        invariant old(requests) + TableRequests(kind, t, t.keys, IdMaps())
                  == requests + TableRequests(kind, t, t.keys[i..], IdMaps())
      {
        assert t.keys[i..][1..] == t.keys[i + 1..];
        ShareRecord(kind, t, t.keys[i]);
        i := i + 1;
      }
    }

    /** `_apply_sharing`: the subject table, then the experiment table, then the assessor table. */
    method ApplySharing()
      modifies this`requests
      ensures requests == old(requests) + SharingRequests(IdMaps(), old(Local()))
    {
      ghost var maps := IdMaps();
      ghost var a := TableRequests(XnatType.Subject, subjectSharing, subjectSharing.keys, maps);
      ghost var b := TableRequests(XnatType.Experiment, experimentSharing, experimentSharing.keys, maps);
      ghost var c := TableRequests(XnatType.Assessor, assessorSharing, assessorSharing.keys, maps);
      assert SharingRequests(maps, Local()) == a + b + c;
      ShareTable(XnatType.Subject, subjectSharing);
      ShareTable(XnatType.Experiment, experimentSharing);
      ShareTable(XnatType.Assessor, assessorSharing);
      assert requests == old(requests) + a + b + c;
    }

    // -------------------------------------------------------------------------
    // The run

    /** The loop head of `run`: `self.mapper`, `self.source_info` and `self.destination_info` set to pair `i`. */
    method Select(i: nat)
      requires Valid() && i < |mappers|
      modifies this`mapper, this`sourceInfo, this`destinationInfo
      ensures Valid()
      ensures mapper == mappers[i] && sourceInfo == allSourceInfo[i] && destinationInfo == allDestinationInfo[i]
    {
      mapper := mappers[i];
      sourceInfo := allSourceInfo[i];
      destinationInfo := allDestinationInfo[i];
    }

    /** Pair `i` of `run`: its mapper and projects set in use, then `_create_resources`. */
    method MigratePair(i: nat) returns (r: Outcome)
      requires Valid() && i < |mappers|
      modifies this, mappers
      ensures Valid()
      ensures var before := old(Global());
              var w := MigrationSpec.CreateResources(env, Ctx(allSourceInfo[i], allDestinationInfo[i]), rsyncOnly,
                                                     before.walk.(idMap := before.idMaps[i]));
              Global() == RunState(before.idMaps[i := w.state.idMap], w.state) && r == w.outcome
    {
      ghost var before := Global();
      Select(i);
      assert Local() == before.walk.(idMap := before.idMaps[i]) && Pair() == Ctx(allSourceInfo[i], allDestinationInfo[i]);
      ghost var w := MigrationSpec.CreateResources(env, Pair(), rsyncOnly, Local());
      r := CreateResources();
      assert Local() == w.state && r == w.outcome;
      forall j | 0 <= j < |mappers|
        ensures IdMaps()[j] == before.idMaps[i := Local().idMap][j]
      {
        if j != i {
          assert mappers[j] != mapper;
        }
      }
    }

    /**
     * The loop of `run` over `zip(mappers, sources, destinations)`: each pair
     * with its own mapper set in use, then its configuration copied, stopping
     * at the first exception.
     */
    method MigratePairs() returns (r: Outcome)
      requires Valid()
      modifies this, mappers
      ensures Valid()
      ensures Global() == RunPairs(env, allSourceInfo, allDestinationInfo, rsyncOnly, old(Global()), 0).state
      ensures r == RunPairs(env, allSourceInfo, allDestinationInfo, rsyncOnly, old(Global()), 0).outcome
    {
      r := Pass;
      ghost var start := Global();
      var i := 0;
      while i < |mappers|
        invariant 0 <= i <= |mappers| && r.Pass? && Valid()
        invariant RunPairs(env, allSourceInfo, allDestinationInfo, rsyncOnly, start, 0)
                  == RunPairs(env, allSourceInfo, allDestinationInfo, rsyncOnly, Global(), i)
      {
        ghost var before := Global();
        r := MigratePair(i);
        ghost var w := MigrationSpec.CreateResources(env, Ctx(allSourceInfo[i], allDestinationInfo[i]), rsyncOnly,
                                                     before.walk.(idMap := before.idMaps[i]));
        ghost var c := env.projectConfigs(allSourceInfo[i], allDestinationInfo[i]);
        assert RunPairs(env, allSourceInfo, allDestinationInfo, rsyncOnly, before, i)
               == if w.outcome.Fail? then Ran(Global(), w.outcome)
                  else if c.Fail? then Ran(Global(), c)
                  else RunPairs(env, allSourceInfo, allDestinationInfo, rsyncOnly, Global(), i + 1);
        if r.Fail? {
          return;
        }
        // _set_project_configs
        r := env.projectConfigs(allSourceInfo[i], allDestinationInfo[i]);
        if r.Fail? {
          return;
        }
        i := i + 1;
      }
    }

    /**
     * `run`: the datatype check, the users, every pair, then sharing; `zip(strict=True)`
     * raises after the common pairs when the lists differ in length.
     */
    method Run() returns (r: Outcome)
      requires Valid()
      modifies this, mappers
      ensures Valid()
      ensures Global() == MigrationSpec.Run(env, allSourceInfo, allDestinationInfo, rsyncOnly, old(Global())).state
      ensures r == MigrationSpec.Run(env, allSourceInfo, allDestinationInfo, rsyncOnly, old(Global())).outcome
    {
      r := CheckDatatypesMatching(env.sourceCreateable, env.destinationCreateable);
      if r.Fail? {
        return;
      }
      // _create_users
      r := env.createUsers;
      if r.Fail? {
        return;
      }
      r := MigratePairs();
      if r.Fail? {
        return;
      }
      if |allSourceInfo| != |mappers| || |allDestinationInfo| != |mappers| {
        return Fail(UnequalLengths);
      }
      ApplySharing();
    }
  }
}
