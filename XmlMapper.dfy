/**
 * The record transformer of the migration (src/xmigrate/xml_mapper.py): the
 * tables fixed when an XMLMapper is built, the identifier table it keeps, and
 * the rewriting of one XML record, step by step, before it is sent to the
 * destination server.
 *
 * XML elements are values here. `findall(tag)` is "the direct children whose
 * tag equals `tag`". ElementTree writes a tag as the string `{namespace}local`;
 * here it is the pair of the two parts, which carries the same information.
 */
module XmlMapper {
  import opened Common
  import opened Strings

  /** The kinds of XNAT item (an auto-valued string enumeration). */
  datatype XnatType =
    | Server | Project | Subject | Experiment | Scan | Assessor
    | Reconstruction | Resource | InResource | OutResource | File

  /** The enumeration's string value. */
  function KindName(k: XnatType): string {
    match k
    case Server => "server"
    case Project => "project"
    case Subject => "subject"
    case Experiment => "experiment"
    case Scan => "scan"
    case Assessor => "assessor"
    case Reconstruction => "reconstruction"
    case Resource => "resource"
    case InResource => "in_resource"
    case OutResource => "out_resource"
    case File => "file"
  }

  /** One project endpoint, source or destination. */
  datatype ProjectInfo = ProjectInfo(id: string, secondaryId: string, projectName: string, archivePath: string)

  /** An element name: a namespace URI (empty for none) and a local name. */
  datatype Tag = Tag(namespace: string, local: string)

  /** ElementTree's `{namespace}local` spelling of a tag. */
  function Clark(t: Tag): string {
    if t.namespace == "" then t.local else "{" + t.namespace + "}" + t.local
  }

  /** An XML element: its tag, attributes, text and direct children in order. */
  datatype Element = Element(tag: Tag, attrib: map<string, string>, text: Option<string>, children: seq<Element>)

  const XnatNs: string := "http://nrg.wustl.edu/xnat"
  const IcrNs: string := "http://icr.ac.uk/icr"

  // Tags the transformer looks at.
  const NameTag: Tag := Tag(XnatNs, "name")
  const ImageScanDataTag: Tag := Tag(XnatNs, "imageScanData")
  const ModalityTag: Tag := Tag(XnatNs, "modality")
  /** The fallback scan tag, written without a namespace URI. */
  const OtherScanTag: Tag := Tag("", "xnat:OtherDicomScan")
  const FileTag: Tag := Tag(XnatNs, "file")
  const OutTag: Tag := Tag(XnatNs, "out")
  const ResourcesTag: Tag := Tag(XnatNs, "resources")
  const ResourceTag: Tag := Tag(XnatNs, "resource")

  /** Scan subtype per DICOM modality code. */
  const ModalityToScan: map<string, Tag> := map[
    "MR" := Tag(XnatNs, "MRScan"),
    "CT" := Tag(XnatNs, "CTScan"),
    "US" := Tag(XnatNs, "USScan"),
    "PT" := Tag(XnatNs, "PETScan"),
    "NM" := Tag(XnatNs, "NMScan")
  ]

  /** Child collections that must not be submitted with a new resource. */
  const TagsToDelete: seq<Tag> := [
    Tag(XnatNs, "experiments"),
    Tag(XnatNs, "scans"),
    Tag(XnatNs, "assessors"),
    Tag(XnatNs, "reconstructions"),
    Tag(XnatNs, "prearchivePath"),
    Tag(XnatNs, "sharing")
  ]

  /** Children holding an identifier of another item, with that item's kind, in dictionary order. */
  const TagsToRemap: seq<(Tag, XnatType)> := [
    (Tag(IcrNs, "subjectID"), Subject),
    (Tag(XnatNs, "subject_ID"), Subject),
    (Tag(XnatNs, "image_session_ID"), Experiment),
    (Tag(XnatNs, "imageSession_ID"), Experiment),
    (Tag(XnatNs, "session_id"), Experiment),
    (Tag(XnatNs, "scanID"), Scan),
    (Tag(XnatNs, "imageScan_ID"), Scan)
  ]

  /** Which identifier table each kind uses: assessors share the experiment table. */
  const IdsToMap: map<XnatType, XnatType> := map[
    Project := Project,
    Subject := Subject,
    Experiment := Experiment,
    Assessor := Experiment,
    Reconstruction := Reconstruction,
    Scan := Scan
  ]

  /** The identifier table: per kind, source identifier to destination identifier. */
  type IdMap = map<XnatType, map<string, string>>

  /** `id_map[k]` of a `defaultdict(dict)`: a kind never written reads as an empty table. */
  function TableOf(m: IdMap, k: XnatType): map<string, string> {
    if k in m then m[k] else map[]
  }

  function Lookup(m: IdMap, k: XnatType, source: string): Option<string> {
    if source in TableOf(m, k) then Some(TableOf(m, k)[source]) else None
  }

  // ---------------------------------------------------------------------------
  // update_id_map and the lookup that the sharing step relies on

  /**
   * `update_id_map`: the entry of `source` in the table of `IdsToMap[mapType]`
   * becomes `destination`, overwriting any earlier value; every other entry is
   * kept. A kind outside `IdsToMap` raises KeyError.
   */
  function UpdatedIdMap(m: IdMap, source: string, destination: string, mapType: XnatType): (r: Result<IdMap>)
    ensures r.Err? <==> mapType !in IdsToMap
    ensures r.Err? ==> r.error == UnknownKind(KindName(mapType))
    ensures r.Ok? ==> Lookup(r.value, IdsToMap[mapType], source) == Some(destination)
    ensures r.Ok? ==> forall k, s :: (k != IdsToMap[mapType] || s != source) ==> Lookup(r.value, k, s) == Lookup(m, k, s)
  {
    if mapType !in IdsToMap then
      Err(UnknownKind(KindName(mapType)))
    else
      var k := IdsToMap[mapType];
      Ok(m[k := TableOf(m, k)[source := destination]])
  }

  /**
   * The destination identifier recorded for `sourceId` under `kind`, read
   * through the same table choice as `UpdatedIdMap`; KeyError when absent.
   * XMLMapper defines no such method although the sharing step calls one
   * (main.py:676); this is the lookup that step evidently expects.
   */
  function GetDestinationId(m: IdMap, sourceId: string, kind: XnatType): Result<string> {
    if kind !in IdsToMap then Err(UnknownKind(KindName(kind)))
    else match Lookup(m, IdsToMap[kind], sourceId)
      case Some(d) => Ok(d)
      case None => Err(MissingKey(sourceId))
  }

  /** Writing an identifier and reading it back, under any kind sharing the table, round-trips. */
  lemma IdMapRoundTrip(m: IdMap, source: string, destination: string, written: XnatType, read: XnatType)
    requires written in IdsToMap && read in IdsToMap && IdsToMap[read] == IdsToMap[written]
    ensures UpdatedIdMap(m, source, destination, written).Ok?
    ensures GetDestinationId(UpdatedIdMap(m, source, destination, written).value, source, read) == Ok(destination)
  {
  }

  /** An assessor's identifier lands in the experiment table. */
  lemma AssessorIdsInExperimentTable(m: IdMap, source: string, destination: string)
    ensures UpdatedIdMap(m, source, destination, Assessor).Ok?
    ensures Lookup(UpdatedIdMap(m, source, destination, Assessor).value, Experiment, source) == Some(destination)
    ensures Lookup(UpdatedIdMap(m, source, destination, Assessor).value, Assessor, source) == Lookup(m, Assessor, source)
  {
  }


  // ---------------------------------------------------------------------------
  // map_xml, steps 1 to 3: the record's own tag and attributes

  function RenameChild(c: Element, name: string): Element {
    if c.tag == NameTag then c.(text := Some(name)) else c
  }

  function RenameChildren(cs: seq<Element>, name: string): seq<Element> {
    seq(|cs|, i requires 0 <= i < |cs| => RenameChild(cs[i], name))
  }

  /** Step 1, project records only: destination identifiers and name. */
  function SetProjectFields(e: Element, destination: ProjectInfo): Element {
    e.(attrib := e.attrib["ID" := destination.id]["secondary_ID" := destination.secondaryId],
       children := RenameChildren(e.children, destination.projectName))
  }

  /** Step 2: `ID` dropped except on projects and scans; `project` set to the destination. */
  function StripIds(e: Element, kind: XnatType, destination: ProjectInfo): Element {
    var kept := if kind == Project || kind == Scan then e.attrib else e.attrib - {"ID"};
    e.(attrib := kept["project" := destination.id])
  }

  /** The non-empty texts of the modality children, in order. */
  function Modalities(cs: seq<Element>): seq<string>
    decreases |cs|
  {
    if cs == [] then []
    else
      var last := cs[|cs| - 1];
      Modalities(cs[..|cs| - 1])
      + (if last.tag == ModalityTag && last.text.Some? && last.text.value != "" then [last.text.value] else [])
  }

  function ScanTagFor(modalities: seq<string>): Tag {
    if |modalities| == 1 && modalities[0] in ModalityToScan then ModalityToScan[modalities[0]] else OtherScanTag
  }

  /** Step 3: an `imageScanData` record takes the tag its modalities call for. */
  function InferScanTag(e: Element): Element {
    if e.tag == ImageScanDataTag then e.(tag := ScanTagFor(Modalities(e.children))) else e
  }

  /** The record after steps 1 to 3. */
  function Prepared(element: Element, kind: XnatType, destination: ProjectInfo): Element {
    var e1 := if kind == Project then SetProjectFields(element, destination) else element;
    InferScanTag(StripIds(e1, kind, destination))
  }

  // ---------------------------------------------------------------------------
  // step 4: child collections

  /** The children whose tag is not in `tags`, in their original order. */
  function KeepUntagged(cs: seq<Element>, tags: seq<Tag>): seq<Element>
    decreases |cs|
  {
    if cs == [] then []
    else
      var last := cs[|cs| - 1];
      KeepUntagged(cs[..|cs| - 1], tags) + (if last.tag in tags then [] else [last])
  }

  // ---------------------------------------------------------------------------
  // step 5: identifier references

  function RemapChild(c: Element, tag: Tag, kind: XnatType, m: IdMap): Result<Element> {
    if c.tag != tag then Ok(c)
    else if kind !in IdsToMap then Err(UnknownKind(KindName(kind)))
    else
      var table := TableOf(m, IdsToMap[kind]);
      if c.text.Some? && c.text.value in table then Ok(c.(text := Some(table[c.text.value])))
      else Err(UnmappedId(Clark(tag), c.text))
  }

  /** A child in front of a partial result. */
  function Cons(h: Element, rest: Result<seq<Element>>): Result<seq<Element>> {
    match rest
    case Ok(t) => Ok([h] + t)
    case Err(e) => Err(e)
  }

  /** A prefix already done in front of a partial result. */
  function Prepend(done: seq<Element>, rest: Result<seq<Element>>): Result<seq<Element>> {
    match rest
    case Ok(t) => Ok(done + t)
    case Err(e) => Err(e)
  }

  /** One `for child in findall(tag)` pass of the remapping, stopping at the first failure. */
  function RemapTag(cs: seq<Element>, tag: Tag, kind: XnatType, m: IdMap): Result<seq<Element>>
    decreases |cs|
  {
    if cs == [] then Ok([])
    else
      var h :- RemapChild(cs[0], tag, kind, m);
      Cons(h, RemapTag(cs[1..], tag, kind, m))
  }

  /** Every remapping pass applied to one child. */
  function RemapChildAll(c: Element, pairs: seq<(Tag, XnatType)>, m: IdMap): Result<Element>
    decreases |pairs|
  {
    if pairs == [] then Ok(c)
    else
      var c1 :- RemapChild(c, pairs[0].0, pairs[0].1, m);
      RemapChildAll(c1, pairs[1..], m)
  }

  /** All remapping passes in dictionary order. */
  function RemapTags(cs: seq<Element>, pairs: seq<(Tag, XnatType)>, m: IdMap): Result<seq<Element>>
    decreases |pairs|
  {
    if pairs == [] then Ok(cs)
    else
      var cs1 :- RemapTag(cs, pairs[0].0, pairs[0].1, m);
      RemapTags(cs1, pairs[1..], m)
  }

  // ---------------------------------------------------------------------------
  // step 6: file locations

  /** `rewrite_uris` on one child. */
  function RewriteUris(child: Element, sourcePath: string, destinationPath: string): Result<Element> {
    if "URI" !in child.attrib then Ok(child)
    else
      var uri := child.attrib["URI"];
      if !Contains(uri, sourcePath) then Err(UriMismatch(sourcePath, uri))
      else Ok(child.(attrib := child.attrib["URI" := ReplaceFirst(uri, sourcePath, destinationPath)]))
  }

  function FileChild(c: Element, tag: Tag, sourcePath: string, destinationPath: string): Result<Element> {
    if c.tag == tag then RewriteUris(c, sourcePath, destinationPath) else Ok(c)
  }

  /** `for child in findall(tag): rewrite_uris(child, ...)`, stopping at the first failure. */
  function RewriteTagged(cs: seq<Element>, tag: Tag, sourcePath: string, destinationPath: string): Result<seq<Element>>
    decreases |cs|
  {
    if cs == [] then Ok([])
    else
      var h :- FileChild(cs[0], tag, sourcePath, destinationPath);
      Cons(h, RewriteTagged(cs[1..], tag, sourcePath, destinationPath))
  }

  function NestedChild(c: Element, outer: Tag, inner: Tag, sourcePath: string, destinationPath: string): Result<Element> {
    if c.tag == outer then
      var cs :- RewriteTagged(c.children, inner, sourcePath, destinationPath);
      Ok(c.(children := cs))
    else Ok(c)
  }

  /** `for o in findall(outer): for child in o.findall(inner): rewrite_uris(child, ...)`. */
  function RewriteNested(cs: seq<Element>, outer: Tag, inner: Tag, sourcePath: string, destinationPath: string): Result<seq<Element>>
    decreases |cs|
  {
    if cs == [] then Ok([])
    else
      var h :- NestedChild(cs[0], outer, inner, sourcePath, destinationPath);
      Cons(h, RewriteNested(cs[1..], outer, inner, sourcePath, destinationPath))
  }

  /** Top-level files, then files under `out`, then resources under `resources`. */
  function RewriteAllUris(cs: seq<Element>, sourcePath: string, destinationPath: string): Result<seq<Element>> {
    var a :- RewriteTagged(cs, FileTag, sourcePath, destinationPath);
    var b :- RewriteNested(a, OutTag, FileTag, sourcePath, destinationPath);
    RewriteNested(b, ResourcesTag, ResourceTag, sourcePath, destinationPath)
  }

  /** `f"{archive_path}/{id}"`: the root of a project's files in its archive. */
  function SourcePath(info: ProjectInfo): string {
    info.archivePath + "/" + info.id
  }

  /** `map_xml`: the six rewriting steps in their fixed order. */
  function MapXmlSpec(source: ProjectInfo, destination: ProjectInfo, m: IdMap, element: Element, kind: XnatType): Result<Element> {
    var e := Prepared(element, kind, destination);
    var remapped :- RemapTags(KeepUntagged(e.children, TagsToDelete), TagsToRemap, m);
    var rewritten :- RewriteAllUris(remapped, SourcePath(source), SourcePath(destination));
    Ok(e.(children := rewritten))
  }

  // ---------------------------------------------------------------------------
  // Facts about the tag tables

  /** The tags handled by different steps are different tags. */
  lemma TagsDiffer()
    ensures NameTag != FileTag && NameTag != OutTag && NameTag != ResourcesTag
    ensures FileTag != OutTag && FileTag != ResourcesTag && OutTag != ResourcesTag
  {
    assert NameTag.local[0] != FileTag.local[0];
  }

  /** `subject_ID` and `session_id` have the same length; all other remapped tags differ in length. */
  lemma TagsToRemapDistinct()
    ensures DistinctTags(TagsToRemap)
  {
    assert TagsToRemap[1].0.local[1] != TagsToRemap[4].0.local[1];
  }

  lemma TagsToRemapKinds()
    ensures KindsMapped(TagsToRemap)
  {
  }

  /** No tag that another step handles is a remapped tag. */
  lemma RemapKindOthers()
    ensures RemapKind(NameTag).None? && RemapKind(FileTag).None?
    ensures RemapKind(OutTag).None? && RemapKind(ResourcesTag).None?
  {
    KindInAbsent(TagsToRemap, NameTag);
    KindInAbsent(TagsToRemap, FileTag);
    KindInAbsent(TagsToRemap, OutTag);
    KindInAbsent(TagsToRemap, ResourcesTag);
  }

  /** The kind a remapped tag refers to, by the first matching dictionary entry. */
  function KindIn(pairs: seq<(Tag, XnatType)>, tag: Tag): Option<XnatType>
    decreases |pairs|
  {
    if pairs == [] then None
    else if pairs[0].0 == tag then Some(pairs[0].1)
    else KindIn(pairs[1..], tag)
  }

  function RemapKind(tag: Tag): Option<XnatType> {
    KindIn(TagsToRemap, tag)
  }

  predicate DistinctTags(pairs: seq<(Tag, XnatType)>) {
    forall i, j :: 0 <= i < j < |pairs| ==> pairs[i].0 != pairs[j].0
  }

  predicate KindsMapped(pairs: seq<(Tag, XnatType)>) {
    forall p :: p in pairs ==> p.1 in IdsToMap
  }

  lemma {:induction false} KindInAbsent(pairs: seq<(Tag, XnatType)>, tag: Tag)
    requires forall i :: 0 <= i < |pairs| ==> pairs[i].0 != tag
    ensures KindIn(pairs, tag).None?
    decreases |pairs|
  {
    if pairs != [] {
      assert forall i :: 0 <= i < |pairs[1..]| ==> pairs[1..][i] == pairs[i + 1];
      KindInAbsent(pairs[1..], tag);
    }
  }

  lemma {:induction false} KindInMapped(pairs: seq<(Tag, XnatType)>, tag: Tag)
    requires KindsMapped(pairs) && KindIn(pairs, tag).Some?
    ensures KindIn(pairs, tag).value in IdsToMap
    decreases |pairs|
  {
    if pairs[0].0 != tag {
      assert pairs[1..] == pairs[1..] && forall p :: p in pairs[1..] ==> p in pairs;
      KindInMapped(pairs[1..], tag);
    }
  }

  // ---------------------------------------------------------------------------
  // Each step, child by child

  lemma PrependNothing(rest: Result<seq<Element>>)
    ensures Prepend([], rest) == rest
  {
    if rest.Ok? {
      assert [] + rest.value == rest.value;
    }
  }

  lemma PrependCons(done: seq<Element>, h: Element, rest: Result<seq<Element>>)
    ensures Prepend(done, Cons(h, rest)) == Prepend(done + [h], rest)
  {
    if rest.Ok? {
      assert done + ([h] + rest.value) == done + [h] + rest.value;
    }
  }

  lemma ConsShift(cs: seq<Element>, k: int)
    requires 1 <= k < |cs|
    ensures cs[1..][k - 1] == cs[k]
  {
  }

  /** A deletion pass that removes nothing leaves the children as they are. */
  lemma {:induction false} KeepUntaggedNone(cs: seq<Element>)
    ensures KeepUntagged(cs, []) == cs
    decreases |cs|
  {
    if cs != [] {
      KeepUntaggedNone(cs[..|cs| - 1]);
      assert cs == cs[..|cs| - 1] + [cs[|cs| - 1]];
    }
  }

  lemma KeepUntaggedAppend(cs: seq<Element>, c: Element, tags: seq<Tag>)
    ensures KeepUntagged(cs + [c], tags) == KeepUntagged(cs, tags) + (if c.tag in tags then [] else [c])
  {
    assert (cs + [c])[..|cs + [c]| - 1] == cs;
  }

  /** Removing one more tag after a list of tags is removing the extended list. */
  lemma {:induction false} KeepUntaggedTwice(cs: seq<Element>, tags: seq<Tag>, t: Tag)
    ensures KeepUntagged(KeepUntagged(cs, tags), [t]) == KeepUntagged(cs, tags + [t])
    decreases |cs|
  {
    if cs != [] {
      var init, last := cs[..|cs| - 1], cs[|cs| - 1];
      KeepUntaggedTwice(init, tags, t);
      var k := KeepUntagged(init, tags);
      if last.tag in tags {
        assert KeepUntagged(cs, tags) == k + [];
        assert k + [] == k;
      } else {
        KeepUntaggedAppend(k, last, [t]);
      }
    }
  }

  /** Exactly the untagged children survive, each as often as it occurs. */
  lemma {:induction false} KeepUntaggedExact(cs: seq<Element>, tags: seq<Tag>)
    ensures forall c: Element :: c.tag !in tags ==> multiset(KeepUntagged(cs, tags))[c] == multiset(cs)[c]
    ensures forall c: Element :: c.tag in tags ==> multiset(KeepUntagged(cs, tags))[c] == 0
    decreases |cs|
  {
    if cs != [] {
      KeepUntaggedExact(cs[..|cs| - 1], tags);
      assert cs == cs[..|cs| - 1] + [cs[|cs| - 1]];
    }
  }

  lemma {:induction false} KeepUntaggedRename(cs: seq<Element>, tags: seq<Tag>, name: string)
    ensures KeepUntagged(RenameChildren(cs, name), tags) == RenameChildren(KeepUntagged(cs, tags), name)
    decreases |cs|
  {
    if cs != [] {
      var init, last := cs[..|cs| - 1], cs[|cs| - 1];
      assert RenameChildren(cs, name)[..|cs| - 1] == RenameChildren(init, name);
      KeepUntaggedRename(init, tags, name);
      var k := KeepUntagged(init, tags);
      if last.tag in tags {
        assert KeepUntagged(cs, tags) == k + [];
        assert k + [] == k;
      } else {
        assert RenameChildren(k + [last], name) == RenameChildren(k, name) + [RenameChild(last, name)];
      }
    }
  }

  /** A code is among the modalities exactly when some modality child carries it as non-empty text. */
  lemma {:induction false} ModalitiesExact(cs: seq<Element>)
    ensures forall x :: x in Modalities(cs) <==> exists c :: c in cs && c.tag == ModalityTag && c.text == Some(x) && x != ""
    decreases |cs|
  {
    if cs != [] {
      ModalitiesExact(cs[..|cs| - 1]);
      assert forall c :: c in cs <==> c in cs[..|cs| - 1] || c == cs[|cs| - 1];
    }
  }

  lemma {:induction false} ModalitiesRename(cs: seq<Element>, name: string)
    ensures Modalities(RenameChildren(cs, name)) == Modalities(cs)
    decreases |cs|
  {
    if cs != [] {
      assert RenameChildren(cs, name)[..|cs| - 1] == RenameChildren(cs[..|cs| - 1], name);
      ModalitiesRename(cs[..|cs| - 1], name);
    }
  }

  /** A remapping pass succeeds exactly when it succeeds on every child, and maps child by child. */
  lemma {:induction false} RemapTagPointwise(cs: seq<Element>, tag: Tag, kind: XnatType, m: IdMap)
    ensures var r := RemapTag(cs, tag, kind, m);
            && (r.Ok? <==> forall k :: 0 <= k < |cs| ==> RemapChild(cs[k], tag, kind, m).Ok?)
            && (r.Ok? ==> |r.value| == |cs| && forall k :: 0 <= k < |cs| ==> r.value[k] == RemapChild(cs[k], tag, kind, m).value)
            && (r.Err? && kind in IdsToMap ==> r.error.UnmappedId?)
    decreases |cs|
  {
    if cs != [] {
      RemapTagPointwise(cs[1..], tag, kind, m);
      forall k | 1 <= k < |cs| {
        ConsShift(cs, k);
      }
    }
  }

  /** The remapping passes succeed exactly when every child survives all of them, and map child by child. */
  lemma {:induction false} RemapTagsPointwise(cs: seq<Element>, pairs: seq<(Tag, XnatType)>, m: IdMap)
    ensures var r := RemapTags(cs, pairs, m);
            && (r.Ok? <==> forall k :: 0 <= k < |cs| ==> RemapChildAll(cs[k], pairs, m).Ok?)
            && (r.Ok? ==> |r.value| == |cs| && forall k :: 0 <= k < |cs| ==> r.value[k] == RemapChildAll(cs[k], pairs, m).value)
            && (r.Err? && KindsMapped(pairs) ==> r.error.UnmappedId?)
    decreases |pairs|
  {
    if pairs != [] {
      RemapTagPointwise(cs, pairs[0].0, pairs[0].1, m);
      assert pairs[0] in pairs;
      match RemapTag(cs, pairs[0].0, pairs[0].1, m)
      case Err(_) =>
        var k :| 0 <= k < |cs| && RemapChild(cs[k], pairs[0].0, pairs[0].1, m).Err?;
        assert RemapChildAll(cs[k], pairs, m).Err?;
      case Ok(cs1) =>
        RemapTagsPointwise(cs1, pairs[1..], m);
        assert KindsMapped(pairs) ==> KindsMapped(pairs[1..]) by {
          assert forall p :: p in pairs[1..] ==> p in pairs;
        }
        assert forall k :: 0 <= k < |cs| ==> RemapChildAll(cs[k], pairs, m) == RemapChildAll(cs1[k], pairs[1..], m);
    }
  }

  lemma {:induction false} RemapChildAllUntouched(c: Element, pairs: seq<(Tag, XnatType)>, m: IdMap)
    requires KindIn(pairs, c.tag).None?
    ensures RemapChildAll(c, pairs, m) == Ok(c)
    decreases |pairs|
  {
    if pairs != [] {
      RemapChildAllUntouched(c, pairs[1..], m);
    }
  }

  /** With distinct tags, exactly the pass for the child's own tag acts on it. */
  lemma {:induction false} RemapChildAllOnce(c: Element, pairs: seq<(Tag, XnatType)>, m: IdMap)
    requires DistinctTags(pairs)
    ensures RemapChildAll(c, pairs, m) ==
              match KindIn(pairs, c.tag)
              case None => Ok(c)
              case Some(k) => RemapChild(c, c.tag, k, m)
    decreases |pairs|
  {
    if pairs == [] {
    } else if pairs[0].0 == c.tag {
      var r := RemapChild(c, c.tag, pairs[0].1, m);
      if r.Ok? {
        KindInAbsent(pairs[1..], c.tag);
        RemapChildAllUntouched(r.value, pairs[1..], m);
      }
    } else {
      assert DistinctTags(pairs[1..]);
      RemapChildAllOnce(c, pairs[1..], m);
    }
  }

  /**
   * `rewrite_uris`: without a `URI` attribute the child is unchanged; a URI
   * not containing the source root anywhere (a substring test) fails; otherwise
   * only the first occurrence of the source root is replaced, and nothing else
   * about the child changes.
   */
  lemma RewriteUrisSpec(child: Element, sourcePath: string, destinationPath: string)
    ensures var r := RewriteUris(child, sourcePath, destinationPath);
            && ("URI" !in child.attrib ==> r == Ok(child))
            && ("URI" in child.attrib ==> (r.Err? <==> !Contains(child.attrib["URI"], sourcePath)))
            && (r.Err? ==> r.error == UriMismatch(sourcePath, child.attrib["URI"]))
            && (r.Ok? ==> r.value.tag == child.tag && r.value.text == child.text && r.value.children == child.children
                          && r.value.attrib.Keys == child.attrib.Keys
                          && forall a :: a in child.attrib && a != "URI" ==> r.value.attrib[a] == child.attrib[a])
            && (r.Ok? && "URI" in child.attrib ==>
                  exists i :: OccursAt(child.attrib["URI"], sourcePath, i)
                              && (forall j :: 0 <= j < i ==> !OccursAt(child.attrib["URI"], sourcePath, j))
                              && r.value.attrib["URI"] == child.attrib["URI"][..i] + destinationPath + child.attrib["URI"][i + |sourcePath|..])
  {
  }

  lemma {:induction false} RewriteTaggedPointwise(cs: seq<Element>, tag: Tag, sourcePath: string, destinationPath: string)
    ensures var r := RewriteTagged(cs, tag, sourcePath, destinationPath);
            && (r.Ok? <==> forall k :: 0 <= k < |cs| ==> FileChild(cs[k], tag, sourcePath, destinationPath).Ok?)
            && (r.Ok? ==> |r.value| == |cs| && forall k :: 0 <= k < |cs| ==> r.value[k] == FileChild(cs[k], tag, sourcePath, destinationPath).value)
    decreases |cs|
  {
    if cs != [] {
      RewriteTaggedPointwise(cs[1..], tag, sourcePath, destinationPath);
      forall k | 1 <= k < |cs| {
        ConsShift(cs, k);
      }
    }
  }

  lemma {:induction false} RewriteNestedPointwise(cs: seq<Element>, outer: Tag, inner: Tag, sourcePath: string, destinationPath: string)
    ensures var r := RewriteNested(cs, outer, inner, sourcePath, destinationPath);
            && (r.Ok? <==> forall k :: 0 <= k < |cs| ==> NestedChild(cs[k], outer, inner, sourcePath, destinationPath).Ok?)
            && (r.Ok? ==> |r.value| == |cs| && forall k :: 0 <= k < |cs| ==> r.value[k] == NestedChild(cs[k], outer, inner, sourcePath, destinationPath).value)
    decreases |cs|
  {
    if cs != [] {
      RewriteNestedPointwise(cs[1..], outer, inner, sourcePath, destinationPath);
      forall k | 1 <= k < |cs| {
        ConsShift(cs, k);
      }
    }
  }

  /** The three rewriting passes applied to one child. */
  function UriChild(c: Element, sourcePath: string, destinationPath: string): Result<Element> {
    var c1 :- FileChild(c, FileTag, sourcePath, destinationPath);
    var c2 :- NestedChild(c1, OutTag, FileTag, sourcePath, destinationPath);
    NestedChild(c2, ResourcesTag, ResourceTag, sourcePath, destinationPath)
  }

  lemma RewriteAllUrisPointwise(cs: seq<Element>, sourcePath: string, destinationPath: string)
    ensures var r := RewriteAllUris(cs, sourcePath, destinationPath);
            && (r.Ok? <==> forall k :: 0 <= k < |cs| ==> UriChild(cs[k], sourcePath, destinationPath).Ok?)
            && (r.Ok? ==> |r.value| == |cs| && forall k :: 0 <= k < |cs| ==> r.value[k] == UriChild(cs[k], sourcePath, destinationPath).value)
  {
    RewriteTaggedPointwise(cs, FileTag, sourcePath, destinationPath);
    match RewriteTagged(cs, FileTag, sourcePath, destinationPath)
    case Err(_) =>
    case Ok(a) =>
      RewriteNestedPointwise(a, OutTag, FileTag, sourcePath, destinationPath);
      match RewriteNested(a, OutTag, FileTag, sourcePath, destinationPath)
      case Err(_) =>
        var k :| 0 <= k < |a| && NestedChild(a[k], OutTag, FileTag, sourcePath, destinationPath).Err?;
        assert UriChild(cs[k], sourcePath, destinationPath).Err?;
      case Ok(b) =>
        RewriteNestedPointwise(b, ResourcesTag, ResourceTag, sourcePath, destinationPath);
  }

  // ---------------------------------------------------------------------------
  // What map_xml does to each surviving direct child

  function RenameIf(c: Element, kind: XnatType, destination: ProjectInfo): Element {
    if kind == Project then RenameChild(c, destination.projectName) else c
  }

  /** Steps 1, 5 and 6 applied to one direct child that survives step 4. */
  function MapChild(c: Element, kind: XnatType, source: ProjectInfo, destination: ProjectInfo, m: IdMap): Result<Element> {
    var c1 := RenameIf(c, kind, destination);
    var c2 :- RemapChildAll(c1, TagsToRemap, m);
    UriChild(c2, SourcePath(source), SourcePath(destination))
  }

  /** `map_xml` never renames a direct child. */
  lemma MapChildKeepsTag(c: Element, kind: XnatType, source: ProjectInfo, destination: ProjectInfo, m: IdMap)
    ensures var r := MapChild(c, kind, source, destination, m);
            r.Ok? ==> r.value.tag == c.tag
  {
    TagsToRemapDistinct();
    var c1 := RenameIf(c, kind, destination);
    RemapChildAllOnce(c1, TagsToRemap, m);
  }

  /** A name child of a project record takes the project name; of any other record it is kept. */
  lemma MapChildName(c: Element, kind: XnatType, source: ProjectInfo, destination: ProjectInfo, m: IdMap)
    requires c.tag == NameTag
    ensures MapChild(c, kind, source, destination, m) == Ok(if kind == Project then c.(text := Some(destination.projectName)) else c)
  {
    TagsDiffer();
    RemapKindOthers();
    RemapChildAllUntouched(RenameIf(c, kind, destination), TagsToRemap, m);
  }

  /** A child with a remapped tag only has its identifier translated. */
  lemma MapChildRemapped(c: Element, kind: XnatType, source: ProjectInfo, destination: ProjectInfo, m: IdMap)
    requires RemapKind(c.tag).Some?
    ensures MapChild(c, kind, source, destination, m) == RemapChild(c, c.tag, RemapKind(c.tag).value, m)
  {
    TagsToRemapDistinct();
    RemapKindOthers();
    assert c.tag != NameTag && c.tag != FileTag && c.tag != OutTag && c.tag != ResourcesTag;
    RemapChildAllOnce(c, TagsToRemap, m);
  }

  /** File, out and resources children only have their URIs rewritten. */
  lemma MapChildUris(c: Element, kind: XnatType, source: ProjectInfo, destination: ProjectInfo, m: IdMap)
    ensures var r := MapChild(c, kind, source, destination, m);
            var sp, dp := SourcePath(source), SourcePath(destination);
            && (c.tag == FileTag ==> r == RewriteUris(c, sp, dp))
            && (c.tag == OutTag ==> r == NestedChild(c, OutTag, FileTag, sp, dp))
            && (c.tag == ResourcesTag ==> r == NestedChild(c, ResourcesTag, ResourceTag, sp, dp))
  {
    if c.tag == FileTag || c.tag == OutTag || c.tag == ResourcesTag {
      TagsDiffer();
      RemapKindOthers();
      RemapChildAllUntouched(c, TagsToRemap, m);
    }
  }

  /** Any other child is left as it is. */
  lemma MapChildOther(c: Element, kind: XnatType, source: ProjectInfo, destination: ProjectInfo, m: IdMap)
    requires c.tag != NameTag && RemapKind(c.tag).None? && c.tag != FileTag && c.tag != OutTag && c.tag != ResourcesTag
    ensures MapChild(c, kind, source, destination, m) == Ok(c)
  {
    RemapChildAllUntouched(c, TagsToRemap, m);
  }

  /** The children that survive the deletion step, as the source record has them. */
  function Kept(element: Element): seq<Element> {
    KeepUntagged(element.children, TagsToDelete)
  }

  lemma PreparedChildren(element: Element, kind: XnatType, destination: ProjectInfo)
    ensures var kept := KeepUntagged(Prepared(element, kind, destination).children, TagsToDelete);
            && |kept| == |Kept(element)|
            && forall k :: 0 <= k < |kept| ==> kept[k] == RenameIf(Kept(element)[k], kind, destination)
  {
    if kind == Project {
      KeepUntaggedRename(element.children, TagsToDelete, destination.projectName);
    }
  }

  /**
   * `map_xml` succeeds exactly when every surviving child maps, and then its
   * children are the surviving children, in order, each as `MapChild` maps it.
   */
  lemma MapXmlChildren(source: ProjectInfo, destination: ProjectInfo, m: IdMap, element: Element, kind: XnatType)
    ensures var r := MapXmlSpec(source, destination, m, element, kind);
            && (r.Ok? <==> forall k :: 0 <= k < |Kept(element)| ==> MapChild(Kept(element)[k], kind, source, destination, m).Ok?)
            && (r.Ok? ==> |r.value.children| == |Kept(element)|
                          && forall k :: 0 <= k < |Kept(element)| ==>
                               r.value.children[k] == MapChild(Kept(element)[k], kind, source, destination, m).value)
  {
    var kept := KeepUntagged(Prepared(element, kind, destination).children, TagsToDelete);
    var sp, dp := SourcePath(source), SourcePath(destination);
    PreparedChildren(element, kind, destination);
    RemapTagsPointwise(kept, TagsToRemap, m);
    match RemapTags(kept, TagsToRemap, m)
    case Err(_) =>
      var k :| 0 <= k < |kept| && RemapChildAll(kept[k], TagsToRemap, m).Err?;
      assert kept[k] == RenameIf(Kept(element)[k], kind, destination);
      assert MapChild(Kept(element)[k], kind, source, destination, m).Err?;
    case Ok(remapped) =>
      RewriteAllUrisPointwise(remapped, sp, dp);
      forall k | 0 <= k < |kept|
        ensures MapChild(Kept(element)[k], kind, source, destination, m) == UriChild(remapped[k], sp, dp)
      {
        assert kept[k] == RenameIf(Kept(element)[k], kind, destination);
        assert RemapChildAll(kept[k], TagsToRemap, m) == Ok(remapped[k]);
      }
      match RewriteAllUris(remapped, sp, dp)
      case Err(_) =>
        var k :| 0 <= k < |remapped| && UriChild(remapped[k], sp, dp).Err?;
        assert MapChild(Kept(element)[k], kind, source, destination, m).Err?;
      case Ok(rewritten) =>
        assert MapXmlSpec(source, destination, m, element, kind) == Ok(Prepared(element, kind, destination).(children := rewritten));
  }

  // ---------------------------------------------------------------------------
  // The properties map_xml promises

  lemma MapXmlShape(source: ProjectInfo, destination: ProjectInfo, m: IdMap, element: Element, kind: XnatType)
    requires MapXmlSpec(source, destination, m, element, kind).Ok?
    ensures var r := MapXmlSpec(source, destination, m, element, kind).value;
            r.tag == Prepared(element, kind, destination).tag && r.attrib == Prepared(element, kind, destination).attrib
  {
  }

  /**
   * For a project record: `ID` and `secondary_ID` are the destination's, and
   * every remaining name child carries the destination project name.
   */
  lemma MapXmlProjectFields(source: ProjectInfo, destination: ProjectInfo, m: IdMap, element: Element)
    requires MapXmlSpec(source, destination, m, element, Project).Ok?
    ensures var r := MapXmlSpec(source, destination, m, element, Project).value;
            && r.attrib["ID"] == destination.id
            && r.attrib["secondary_ID"] == destination.secondaryId
            && forall c :: c in r.children && c.tag == NameTag ==> c.text == Some(destination.projectName)
  {
    MapXmlShape(source, destination, m, element, Project);
    MapXmlChildren(source, destination, m, element, Project);
    var r := MapXmlSpec(source, destination, m, element, Project).value;
    forall c | c in r.children && c.tag == NameTag
      ensures c.text == Some(destination.projectName)
    {
      var k :| 0 <= k < |r.children| && r.children[k] == c;
      MapChildKeepsTag(Kept(element)[k], Project, source, destination, m);
      MapChildName(Kept(element)[k], Project, source, destination, m);
    }
  }

  /**
   * For every kind: `project` names the destination, `ID` survives only on
   * project and scan records (a scan keeps its own, a project gets the
   * destination's), and every other attribute is kept, except the project
   * record's `secondary_ID`.
   */
  lemma MapXmlAttributes(source: ProjectInfo, destination: ProjectInfo, m: IdMap, element: Element, kind: XnatType)
    requires MapXmlSpec(source, destination, m, element, kind).Ok?
    ensures var r := MapXmlSpec(source, destination, m, element, kind).value;
            && "project" in r.attrib && r.attrib["project"] == destination.id
            && ("ID" in r.attrib <==> kind == Project || (kind == Scan && "ID" in element.attrib))
            && (kind == Scan && "ID" in element.attrib ==> r.attrib["ID"] == element.attrib["ID"])
            && (forall a :: a != "ID" && a != "project" && a != "secondary_ID" ==>
                  (a in r.attrib <==> a in element.attrib) && (a in r.attrib ==> r.attrib[a] == element.attrib[a]))
            && (kind != Project ==> ("secondary_ID" in r.attrib <==> "secondary_ID" in element.attrib)
                                    && ("secondary_ID" in r.attrib ==> r.attrib["secondary_ID"] == element.attrib["secondary_ID"]))
  {
    MapXmlShape(source, destination, m, element, kind);
  }

  /**
   * An `imageScanData` record takes the subtype of its one non-empty
   * modality when that modality is known, and `xnat:OtherDicomScan` when it
   * has none, several, or an unknown one; any other record keeps its tag.
   */
  lemma MapXmlScanTag(source: ProjectInfo, destination: ProjectInfo, m: IdMap, element: Element, kind: XnatType)
    requires MapXmlSpec(source, destination, m, element, kind).Ok?
    ensures var r := MapXmlSpec(source, destination, m, element, kind).value;
            var ms := Modalities(element.children);
            && (element.tag != ImageScanDataTag ==> r.tag == element.tag)
            && (element.tag == ImageScanDataTag && |ms| == 1 && ms[0] in ModalityToScan ==> r.tag == ModalityToScan[ms[0]])
            && (element.tag == ImageScanDataTag && !(|ms| == 1 && ms[0] in ModalityToScan) ==> r.tag == OtherScanTag)
  {
    MapXmlShape(source, destination, m, element, kind);
    if kind == Project {
      ModalitiesRename(element.children, destination.projectName);
    }
  }

  /**
   * After `map_xml` no direct child has a deleted tag, and the children left
   * are exactly the others, in order: only the deletion step removes any.
   */
  lemma MapXmlDeletesCollections(source: ProjectInfo, destination: ProjectInfo, m: IdMap, element: Element, kind: XnatType)
    requires MapXmlSpec(source, destination, m, element, kind).Ok?
    ensures var r := MapXmlSpec(source, destination, m, element, kind).value;
            && (forall c :: c in r.children ==> c.tag !in TagsToDelete)
            && |r.children| == |Kept(element)|
            && (forall k :: 0 <= k < |r.children| ==> r.children[k].tag == Kept(element)[k].tag)
            && (forall c: Element :: c.tag !in TagsToDelete ==> multiset(Kept(element))[c] == multiset(element.children)[c])
  {
    MapXmlChildren(source, destination, m, element, kind);
    KeepUntaggedExact(element.children, TagsToDelete);
    var r := MapXmlSpec(source, destination, m, element, kind).value;
    forall k | 0 <= k < |r.children|
      ensures r.children[k].tag == Kept(element)[k].tag
    {
      MapChildKeepsTag(Kept(element)[k], kind, source, destination, m);
    }
    forall c | c in r.children
      ensures c.tag !in TagsToDelete
    {
      var k :| 0 <= k < |r.children| && r.children[k] == c;
      var d := Kept(element)[k];
      assert multiset(Kept(element))[d] > 0;
    }
  }

  /**
   * Each surviving child with a remapped tag has its text replaced by the
   * destination identifier that the table of its kind records for it; when
   * one of them has no entry, `map_xml` raises the unmapped-identifier error.
   */
  lemma MapXmlRemapsIds(source: ProjectInfo, destination: ProjectInfo, m: IdMap, element: Element, kind: XnatType)
    ensures var r := MapXmlSpec(source, destination, m, element, kind);
            && (r.Ok? ==> |r.value.children| == |Kept(element)|)
            && (r.Ok? ==> forall k :: 0 <= k < |Kept(element)| && RemapKind(Kept(element)[k].tag).Some? ==>
                  Remapped(Kept(element)[k], m) && r.value.children[k].text == Some(RemappedText(Kept(element)[k], m)))
            && ((exists k :: 0 <= k < |Kept(element)| && RemapKind(Kept(element)[k].tag).Some? && !Remapped(Kept(element)[k], m))
                ==> r.Err? && r.error.UnmappedId?)
  {
    MapXmlChildren(source, destination, m, element, kind);
    TagsToRemapKinds();
    var r := MapXmlSpec(source, destination, m, element, kind);
    forall k | 0 <= k < |Kept(element)| && RemapKind(Kept(element)[k].tag).Some?
      ensures r.Ok? ==> Remapped(Kept(element)[k], m) && r.value.children[k].text == Some(RemappedText(Kept(element)[k], m))
      ensures !Remapped(Kept(element)[k], m) ==> r.Err?
    {
      KindInMapped(TagsToRemap, Kept(element)[k].tag);
      MapChildRemapped(Kept(element)[k], kind, source, destination, m);
    }
    if exists k :: 0 <= k < |Kept(element)| && RemapKind(Kept(element)[k].tag).Some? && !Remapped(Kept(element)[k], m) {
      MapXmlRemapFirst(source, destination, m, element, kind);
    }
  }

  /** The child's identifier has an entry in the table of the kind its tag refers to. */
  predicate Remapped(c: Element, m: IdMap)
    requires RemapKind(c.tag).Some?
  {
    var kind := RemapKind(c.tag).value;
    kind in IdsToMap && c.text.Some? && c.text.value in TableOf(m, IdsToMap[kind])
  }

  function RemappedText(c: Element, m: IdMap): string
    requires RemapKind(c.tag).Some? && Remapped(c, m)
  {
    TableOf(m, IdsToMap[RemapKind(c.tag).value])[c.text.value]
  }

  /** A remapping failure is reported before any URI is looked at. */
  lemma MapXmlRemapFirst(source: ProjectInfo, destination: ProjectInfo, m: IdMap, element: Element, kind: XnatType)
    requires exists k :: 0 <= k < |Kept(element)| && RemapKind(Kept(element)[k].tag).Some? && !Remapped(Kept(element)[k], m)
    ensures MapXmlSpec(source, destination, m, element, kind).Err?
    ensures MapXmlSpec(source, destination, m, element, kind).error.UnmappedId?
  {
    TagsToRemapDistinct();
    TagsToRemapKinds();
    RemapKindOthers();
    var kept := KeepUntagged(Prepared(element, kind, destination).children, TagsToDelete);
    PreparedChildren(element, kind, destination);
    var k :| 0 <= k < |Kept(element)| && RemapKind(Kept(element)[k].tag).Some? && !Remapped(Kept(element)[k], m);
    var c := Kept(element)[k];
    assert c.tag != NameTag;
    assert kept[k] == c;
    RemapChildAllOnce(c, TagsToRemap, m);
    RemapTagsPointwise(kept, TagsToRemap, m);
  }

  /**
   * File locations: every surviving `file` child, every `file` under an `out`
   * child and every `resource` under a `resources` child is rewritten as
   * `rewrite_uris` rewrites it.
   */
  lemma MapXmlRewritesUris(source: ProjectInfo, destination: ProjectInfo, m: IdMap, element: Element, kind: XnatType)
    requires MapXmlSpec(source, destination, m, element, kind).Ok?
    ensures var r := MapXmlSpec(source, destination, m, element, kind).value;
            var sp, dp := SourcePath(source), SourcePath(destination);
            && |r.children| == |Kept(element)|
            && forall k :: 0 <= k < |Kept(element)| ==>
                 var c := Kept(element)[k];
                 && (c.tag == FileTag ==> Ok(r.children[k]) == RewriteUris(c, sp, dp))
                 && (c.tag == OutTag ==>
                       (|r.children[k].children| == |c.children|
                        && forall j :: 0 <= j < |c.children| ==> Ok(r.children[k].children[j]) == FileChild(c.children[j], FileTag, sp, dp)))
                 && (c.tag == ResourcesTag ==>
                       (|r.children[k].children| == |c.children|
                        && forall j :: 0 <= j < |c.children| ==> Ok(r.children[k].children[j]) == FileChild(c.children[j], ResourceTag, sp, dp)))
  {
    MapXmlChildren(source, destination, m, element, kind);
    var r := MapXmlSpec(source, destination, m, element, kind).value;
    var sp, dp := SourcePath(source), SourcePath(destination);
    forall k | 0 <= k < |Kept(element)|
      ensures var c := Kept(element)[k];
              && (c.tag == FileTag ==> Ok(r.children[k]) == RewriteUris(c, sp, dp))
              && (c.tag == OutTag ==>
                    (|r.children[k].children| == |c.children|
                     && forall j :: 0 <= j < |c.children| ==> Ok(r.children[k].children[j]) == FileChild(c.children[j], FileTag, sp, dp)))
              && (c.tag == ResourcesTag ==>
                    (|r.children[k].children| == |c.children|
                     && forall j :: 0 <= j < |c.children| ==> Ok(r.children[k].children[j]) == FileChild(c.children[j], ResourceTag, sp, dp)))
    {
      var c := Kept(element)[k];
      MapChildUris(c, kind, source, destination, m);
      RewriteTaggedPointwise(c.children, FileTag, sp, dp);
      RewriteTaggedPointwise(c.children, ResourceTag, sp, dp);
    }
  }

  /** A file child whose URI does not contain the source root makes `map_xml` fail. */
  lemma MapXmlRejectsForeignUri(source: ProjectInfo, destination: ProjectInfo, m: IdMap, element: Element, kind: XnatType, k: nat)
    requires k < |Kept(element)| && Kept(element)[k].tag == FileTag
    requires "URI" in Kept(element)[k].attrib && !Contains(Kept(element)[k].attrib["URI"], SourcePath(source))
    ensures MapXmlSpec(source, destination, m, element, kind).Err?
  {
    MapXmlChildren(source, destination, m, element, kind);
    MapChildUris(Kept(element)[k], kind, source, destination, m);
  }

  // ---------------------------------------------------------------------------

  /** The transformer of one source/destination project pair and its identifier table. */
  class XMLMapper {
    const source: ProjectInfo
    const destination: ProjectInfo
    var idMap: IdMap

    constructor (source: ProjectInfo, destination: ProjectInfo)
      ensures this.source == source && this.destination == destination && idMap == map[]
    {
      this.source := source;
      this.destination := destination;
      idMap := map[];
    }

    /** `update_id_map`: writes one entry, or raises KeyError and writes nothing. */
    method UpdateIdMap(sourceId: string, destinationId: string, mapType: XnatType) returns (r: Outcome)
      modifies this
      ensures r.Fail? <==> mapType !in IdsToMap
      ensures r.Fail? ==> r.error == UnknownKind(KindName(mapType)) && idMap == old(idMap)
      ensures r.Pass? ==> idMap == UpdatedIdMap(old(idMap), sourceId, destinationId, mapType).value
    {
      if mapType !in IdsToMap {
        return Fail(UnknownKind(KindName(mapType)));
      }
      var k := IdsToMap[mapType];
      var table := if k in idMap then idMap[k] else map[];
      idMap := idMap[k := table[sourceId := destinationId]];
      r := Pass;
    }

    /** `map_xml`: rewrites one record in the fixed order of its six steps. */
    method MapXml(element: Element, resourceType: XnatType) returns (r: Result<Element>)
      ensures r == MapXmlSpec(source, destination, idMap, element, resourceType)
    {
      var e := Prepare(element, resourceType);
      var kept := DeleteTagged(e.children, TagsToDelete);
      var remapped := RemapAll(kept);
      if remapped.Err? {
        return Err(remapped.error);
      }
      var sourcePath := source.archivePath + "/" + source.id;
      var destinationPath := destination.archivePath + "/" + destination.id;
      var files := RewriteUrisOf(remapped.value, FileTag, sourcePath, destinationPath);
      if files.Err? {
        return Err(files.error);
      }
      var outs := RewriteNestedUris(files.value, OutTag, FileTag, sourcePath, destinationPath);
      if outs.Err? {
        return Err(outs.error);
      }
      var resources := RewriteNestedUris(outs.value, ResourcesTag, ResourceTag, sourcePath, destinationPath);
      if resources.Err? {
        return Err(resources.error);
      }
      r := Ok(e.(children := resources.value));
    }

    /** Steps 1 to 3 of `map_xml`: project fields, identifying attributes, scan subtype. */
    method Prepare(element: Element, resourceType: XnatType) returns (e: Element)
      ensures e == Prepared(element, resourceType, destination)
    {
      e := element;
      if resourceType == Project {
        var names := RenameNames(e.children, destination.projectName);
        e := e.(attrib := e.attrib["ID" := destination.id]["secondary_ID" := destination.secondaryId], children := names);
      }
      ghost var e1 := e;
      assert e1 == if resourceType == Project then SetProjectFields(element, destination) else element;
      if resourceType != Project && resourceType != Scan && "ID" in e.attrib {
        e := e.(attrib := e.attrib - {"ID"});
      }
      e := e.(attrib := e.attrib["project" := destination.id]);
      assert e == StripIds(e1, resourceType, destination);
      if e.tag == ImageScanDataTag {
        var modalities := CollectModalities(e.children);
        var newTag := OtherScanTag;
        if |modalities| == 1 && modalities[0] in ModalityToScan {
          newTag := ModalityToScan[modalities[0]];
        }
        e := e.(tag := newTag);
      }
    }

    /** `for name_elem in findall(name): name_elem.text = project_name`. */
    static method RenameNames(cs: seq<Element>, name: string) returns (r: seq<Element>)
      ensures r == RenameChildren(cs, name)
    {
      r := cs;
      for i := 0 to |cs|
        invariant |r| == |cs|
        invariant forall k :: 0 <= k < i ==> r[k] == RenameChild(cs[k], name)
        invariant forall k :: i <= k < |cs| ==> r[k] == cs[k]
      {
        if r[i].tag == NameTag {
          r := r[i := r[i].(text := Some(name))];
        }
      }
    }

    /** The list comprehension over the modality children. */
    static method CollectModalities(cs: seq<Element>) returns (r: seq<string>)
      ensures r == Modalities(cs)
    {
      r := [];
      for i := 0 to |cs|
        invariant r == Modalities(cs[..i])
      {
        assert cs[..i + 1][..i] == cs[..i];
        var c := cs[i];
        if c.tag == ModalityTag && c.text.Some? && c.text.value != "" {
          r := r + [c.text.value];
        }
      }
      assert cs[..|cs|] == cs;
    }

    /** `for tag in tags_to_delete: for child in findall(tag): element.remove(child)`. */
    static method DeleteTagged(cs: seq<Element>, tags: seq<Tag>) returns (r: seq<Element>)
      ensures r == KeepUntagged(cs, tags)
    {
      r := cs;
      KeepUntaggedNone(cs);
      assert tags[..0] == [];
      for t := 0 to |tags|
        invariant r == KeepUntagged(cs, tags[..t])
      {
        var kept := [];
        for j := 0 to |r|
          invariant kept == KeepUntagged(r[..j], [tags[t]])
        {
          assert r[..j + 1][..j] == r[..j];
          if r[j].tag != tags[t] {
            kept := kept + [r[j]];
          }
        }
        assert r[..|r|] == r;
        KeepUntaggedTwice(cs, tags[..t], tags[t]);
        assert tags[..t + 1] == tags[..t] + [tags[t]];
        r := kept;
      }
      assert tags[..|tags|] == tags;
    }

    /** `for tag, map_type in tags_to_remap.items()`: every remapping pass in order. */
    method RemapAll(cs: seq<Element>) returns (r: Result<seq<Element>>)
      ensures r == RemapTags(cs, TagsToRemap, idMap)
    {
      var done := cs;
      assert TagsToRemap[0..] == TagsToRemap;
      for t := 0 to |TagsToRemap|
        invariant RemapTags(cs, TagsToRemap, idMap) == RemapTags(done, TagsToRemap[t..], idMap)
      {
        assert TagsToRemap[t..][1..] == TagsToRemap[t + 1..];
        var next := RemapPass(done, TagsToRemap[t].0, TagsToRemap[t].1);
        if next.Err? {
          return Err(next.error);
        }
        done := next.value;
      }
      assert TagsToRemap[|TagsToRemap|..] == [];
      r := Ok(done);
    }

    /** One remapping pass: `text = id_map[ids_to_map[kind]][text]` for each child with the tag. */
    method RemapPass(cs: seq<Element>, tag: Tag, kind: XnatType) returns (r: Result<seq<Element>>)
      ensures r == RemapTag(cs, tag, kind, idMap)
    {
      var done := cs;
      PrependNothing(RemapTag(cs, tag, kind, idMap));
      assert cs[0..] == cs;
      for j := 0 to |cs|
        invariant |done| == |cs| && done[j..] == cs[j..]
        invariant RemapTag(cs, tag, kind, idMap) == Prepend(done[..j], RemapTag(cs[j..], tag, kind, idMap))
      {
        assert cs[j..][1..] == cs[j + 1..] && cs[j..][0] == done[j];
        assert RemapTag(cs[j..], tag, kind, idMap) ==
                 (var h :- RemapChild(done[j], tag, kind, idMap); Cons(h, RemapTag(cs[j + 1..], tag, kind, idMap)));
        if done[j].tag == tag {
          if kind !in IdsToMap {
            return Err(UnknownKind(KindName(kind)));
          }
          var table := TableOf(idMap, IdsToMap[kind]);
          var text := done[j].text;
          if text.None? || text.value !in table {
            return Err(UnmappedId(Clark(tag), text));
          }
          done := done[j := done[j].(text := Some(table[text.value]))];
        }
        PrependCons(done[..j], done[j], RemapTag(cs[j + 1..], tag, kind, idMap));
        assert done[..j + 1] == done[..j] + [done[j]];
      }
      assert done[..|cs|] == done && cs[|cs|..] == [];
      PrependNothing(Ok(done));
      assert done + [] == done;
      r := Ok(done);
    }

    /** One `for child in findall(tag): rewrite_uris(child, ...)` loop. */
    static method RewriteUrisOf(cs: seq<Element>, tag: Tag, sourcePath: string, destinationPath: string) returns (r: Result<seq<Element>>)
      ensures r == RewriteTagged(cs, tag, sourcePath, destinationPath)
    {
      var done := cs;
      PrependNothing(RewriteTagged(cs, tag, sourcePath, destinationPath));
      assert cs[0..] == cs;
      for j := 0 to |cs|
        invariant |done| == |cs| && done[j..] == cs[j..]
        invariant RewriteTagged(cs, tag, sourcePath, destinationPath) == Prepend(done[..j], RewriteTagged(cs[j..], tag, sourcePath, destinationPath))
      {
        assert cs[j..][1..] == cs[j + 1..];
        if done[j].tag == tag {
          var c := RewriteUris(done[j], sourcePath, destinationPath);
          if c.Err? {
            return Err(c.error);
          }
          done := done[j := c.value];
        }
        PrependCons(done[..j], done[j], RewriteTagged(cs[j + 1..], tag, sourcePath, destinationPath));
        assert done[..j + 1] == done[..j] + [done[j]];
      }
      assert done[..|cs|] == done && cs[|cs|..] == [];
      PrependNothing(Ok(done));
      assert done + [] == done;
      r := Ok(done);
    }

    /** One `for o in findall(outer): for child in o.findall(inner)` loop. */
    static method RewriteNestedUris(cs: seq<Element>, outer: Tag, inner: Tag, sourcePath: string, destinationPath: string) returns (r: Result<seq<Element>>)
      ensures r == RewriteNested(cs, outer, inner, sourcePath, destinationPath)
    {
      var done := cs;
      PrependNothing(RewriteNested(cs, outer, inner, sourcePath, destinationPath));
      assert cs[0..] == cs;
      for j := 0 to |cs|
        invariant |done| == |cs| && done[j..] == cs[j..]
        invariant RewriteNested(cs, outer, inner, sourcePath, destinationPath) == Prepend(done[..j], RewriteNested(cs[j..], outer, inner, sourcePath, destinationPath))
      {
        assert cs[j..][1..] == cs[j + 1..];
        if done[j].tag == outer {
          var grand := RewriteUrisOf(done[j].children, inner, sourcePath, destinationPath);
          if grand.Err? {
            return Err(grand.error);
          }
          done := done[j := done[j].(children := grand.value)];
        }
        PrependCons(done[..j], done[j], RewriteNested(cs[j + 1..], outer, inner, sourcePath, destinationPath));
        assert done[..j + 1] == done[..j] + [done[j]];
      }
      assert done[..|cs|] == done && cs[|cs|..] == [];
      PrependNothing(Ok(done));
      assert done + [] == done;
      r := Ok(done);
    }
  }
}
