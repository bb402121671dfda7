# xmigrate core in Dafny

xmigrate copies XNAT projects from one server to another. For each pair of a
source project and a destination project it does the following:

- it reads every record of the project tree: project, subjects, experiments,
  scans and assessors;
- it rewrites each record with an `XMLMapper`;
- it POSTs the record to the destination unless the destination already lists
  it;
- it reads back the identifier the destination gave the record and records it
  in the mapper's identifier table.

Records that belong to another project are not created. They are remembered in
three sharing tables, one each for subjects, experiments and assessors. When
every pair is done, the run sends one PUT for each project that shares such a
record.

This project models:

- **the record transformer** (`src/xmigrate/xml_mapper.py`): the tables fixed
  when a mapper is built, `update_id_map`, and `map_xml` with each of its
  steps. `map_xml` sets the project fields, strips identifiers, picks the scan
  subtype from the modalities, deletes child collections, remaps identifiers
  and rewrites file URIs.
- **the bookkeeping of a migration** (`src/xmigrate/main.py`):
  - the datatype check and the construction of a `Migration`;
  - the five create calls;
  - the walk in `_create_resources`;
  - the sharing step;
  - the sequencing of project pairs in `run`.

The project has these modules:

- Common: Option, Outcome, Result, and the error kinds the source raises.
- Strings: Python's `in` on strings, and `str.replace(old, new, 1)`.
- XmlMapper:
  - XML elements as values;
  - `map_xml` as a specification function built from its steps;
  - the properties `map_xml` promises, proved as lemmas;
  - the class `XMLMapper`, whose methods work step by step with loops and are
    proved equal to the specification.
- MigrationSpec: the migration as functions of values.
  - The destination server is not modelled. What the client sees of it (its
    listings) is a function `Env.server` of the requests sent so far: POSTs,
    PUTs, and `clearcache` refreshes. Whether `_create_users` and each
    `_set_project_configs` raise is also given by `Env`.
  - A sharing table models Python's dictionary of mutable dictionaries,
    aliasing included. A table holds keys in insertion order, a map from key
    to object, and the objects.
  - Each create call is a function from the state before to the state after,
    together with whether an exception escaped.
- MigrationProperties: what the create calls, the walk, the sharing step and
  the run promise, proved about `MigrationSpec`.
- Migration: the class `Migration` with the source's fields. These are the
  mappers, the current pair, the four failure counters and the three sharing
  tables. They also include a log of requests and a trace of create calls.
  Each method is proved to change the fields as its `MigrationSpec` function
  says.

## Model

| member | source | states |
|---|---|---|
| Strings.FindFirst | src/xmigrate/xml_mapper.py:122 | the index of the first occurrence of the source root in a URI; none exactly when the URI does not contain it (Python `in`) |
| Strings.ReplaceFirst | src/xmigrate/xml_mapper.py:125 | `replace(old, new, 1)`: the string is unchanged without an occurrence; otherwise only the first occurrence is replaced |
| Strings.OccursShift | src/xmigrate/xml_mapper.py:122-125 | proof helper, not behaviour of its own: an occurrence at j > 0 in s is an occurrence at j-1 in s minus its first character |
| XmlMapper.UpdatedIdMap | src/xmigrate/xml_mapper.py:127-141 | KeyError exactly for a kind outside `ids_to_map`; otherwise that kind's table maps source to destination, overwriting, and every other entry is unchanged |
| XmlMapper.IdMapRoundTrip | src/xmigrate/xml_mapper.py:92-100 | an identifier written under one kind reads back under any kind that shares its table |
| XmlMapper.AssessorIdsInExperimentTable | src/xmigrate/xml_mapper.py:92-99 | assessor identifiers go into the experiment table and never into a table of their own |
| XmlMapper.TagsDiffer | src/xmigrate/xml_mapper.py:65-91 | the name, file, out and resources tags are pairwise distinct |
| XmlMapper.TagsToRemapDistinct | src/xmigrate/xml_mapper.py:83-91 | the remapped tags are pairwise distinct, so no child is remapped twice |
| XmlMapper.TagsToRemapKinds | src/xmigrate/xml_mapper.py:83-99 | every remapped tag's kind has an identifier table |
| XmlMapper.RemapKindOthers | src/xmigrate/xml_mapper.py:83-91 | name, file, out and resources children are never remapped |
| XmlMapper.KindInAbsent | src/xmigrate/xml_mapper.py:199-208 | a tag that is in no pair has no remap kind |
| XmlMapper.KindInMapped | src/xmigrate/xml_mapper.py:199-208 | the remap kind found for a tag has an identifier table |
| XmlMapper.PrependNothing | src/xmigrate/xml_mapper.py:199-208 | proof helper, not behaviour of its own: prepending no children leaves a result unchanged |
| XmlMapper.PrependCons | src/xmigrate/xml_mapper.py:199-208 | proof helper, not behaviour of its own: the loop's "done, then the rest" decomposition moves one child along |
| XmlMapper.ConsShift | src/xmigrate/xml_mapper.py:199-208 | proof helper, not behaviour of its own: indexing into the tail of the children |
| XmlMapper.KeepUntaggedNone | src/xmigrate/xml_mapper.py:194-197 | deleting no tags keeps every child |
| XmlMapper.KeepUntaggedAppend | src/xmigrate/xml_mapper.py:194-197 | the deletion of one more child appends it exactly when its tag is kept |
| XmlMapper.KeepUntaggedTwice | src/xmigrate/xml_mapper.py:194-197 | deleting the tags one after another equals deleting them all at once |
| XmlMapper.KeepUntaggedExact | src/xmigrate/xml_mapper.py:194-197 | as a multiset, the deletion keeps every child of a kept tag with its multiplicity and no child of a deleted tag |
| XmlMapper.KeepUntaggedRename | src/xmigrate/xml_mapper.py:163-169 | renaming project name children commutes with deleting collections |
| XmlMapper.ModalitiesExact | src/xmigrate/xml_mapper.py:185-192 | a modality is collected exactly when some modality child has it as non-empty text |
| XmlMapper.ModalitiesRename | src/xmigrate/xml_mapper.py:163-192 | renaming name children does not change the collected modalities |
| XmlMapper.RemapTagPointwise | src/xmigrate/xml_mapper.py:199-208 | one remapping pass succeeds exactly when each child remaps, and then the result is each child remapped, in order |
| XmlMapper.RemapTagsPointwise | src/xmigrate/xml_mapper.py:199-208 | all remapping passes together: success exactly when each child remaps, with the result pointwise |
| XmlMapper.RemapChildAllUntouched | src/xmigrate/xml_mapper.py:199-208 | a child whose tag is in no pair is left alone by every pass |
| XmlMapper.RemapChildAllOnce | src/xmigrate/xml_mapper.py:199-208 | with distinct tags, a child is remapped by exactly the one pass of its tag |
| XmlMapper.RewriteUrisSpec | src/xmigrate/xml_mapper.py:103-125 | a child without `URI` is unchanged; one whose URI does not contain the source root raises that mismatch; otherwise only the first occurrence of the root in `URI` is replaced and nothing else changes |
| XmlMapper.RewriteTaggedPointwise | src/xmigrate/xml_mapper.py:218-219 | rewriting the `file` children succeeds exactly when each rewrite succeeds, with the result pointwise |
| XmlMapper.RewriteNestedPointwise | src/xmigrate/xml_mapper.py:221-227 | the same for the children of `out` and `resources` |
| XmlMapper.RewriteAllUrisPointwise | src/xmigrate/xml_mapper.py:210-227 | the three URI passes together rewrite each child independently |
| XmlMapper.MapChildKeepsTag | src/xmigrate/xml_mapper.py:163-227 | `map_xml` never renames a direct child |
| XmlMapper.MapChildName | src/xmigrate/xml_mapper.py:163-169 | a name child carries the destination project name in a project record, and is untouched otherwise |
| XmlMapper.MapChildRemapped | src/xmigrate/xml_mapper.py:199-208 | a child with a remapped tag is mapped by its remapping alone |
| XmlMapper.MapChildUris | src/xmigrate/xml_mapper.py:210-227 | file, out and resources children are mapped by the URI rewrite alone |
| XmlMapper.MapChildOther | src/xmigrate/xml_mapper.py:163-227 | every other child passes through unchanged |
| XmlMapper.PreparedChildren | src/xmigrate/xml_mapper.py:163-197 | after the steps before the deletion, the kept children are the source's kept children, renamed in a project record |
| XmlMapper.MapXmlChildren | src/xmigrate/xml_mapper.py:143-229 | `map_xml` succeeds exactly when every kept child maps; the result's children are then those children, in order, each mapped |
| XmlMapper.MapXmlShape | src/xmigrate/xml_mapper.py:163-192 | the result's tag and attributes are those set by the first steps |
| XmlMapper.MapXmlProjectFields | src/xmigrate/xml_mapper.py:163-169 | a project record gets the destination's `ID` and `secondary_ID`, and every name child gets the destination name |
| XmlMapper.MapXmlAttributes | src/xmigrate/xml_mapper.py:171-183 | `project` is the destination id; `ID` remains only for projects (the destination's) and scans (their own); every other attribute is kept |
| XmlMapper.MapXmlScanTag | src/xmigrate/xml_mapper.py:185-192 | an `imageScanData` record takes the subtype of its single known modality, and `xnat:OtherDicomScan` otherwise; other records keep their tag |
| XmlMapper.MapXmlDeletesCollections | src/xmigrate/xml_mapper.py:194-197 | no deleted collection remains; the kept children stay, in order, with their multiplicities |
| XmlMapper.MapXmlRemapsIds | src/xmigrate/xml_mapper.py:199-208 | each identifier-bearing child gets the destination identifier its kind's table records; an unmapped one makes `map_xml` raise |
| XmlMapper.MapXmlRemapFirst | src/xmigrate/xml_mapper.py:199-208 | an unmapped identifier raises the remapping error, before any URI is checked |
| XmlMapper.MapXmlRewritesUris | src/xmigrate/xml_mapper.py:210-227 | every file child, every file under out and every resource under resources is rewritten as `rewrite_uris` says |
| XmlMapper.MapXmlRejectsForeignUri | src/xmigrate/xml_mapper.py:218-219 | a file child whose URI does not contain the source root makes `map_xml` raise |
| XmlMapper.XMLMapper.constructor | src/xmigrate/xml_mapper.py:47-100 | a new mapper holds its two projects and an empty identifier table |
| XmlMapper.XMLMapper.UpdateIdMap | src/xmigrate/xml_mapper.py:127-141 | fails, changing nothing, exactly for a kind outside `ids_to_map`; otherwise the table becomes `UpdatedIdMap` of the old one |
| XmlMapper.XMLMapper.MapXml | src/xmigrate/xml_mapper.py:143-229 | the step-by-step transformation equals `MapXmlSpec`, whose properties are the MapXml* lemmas |
| XmlMapper.XMLMapper.Prepare | src/xmigrate/xml_mapper.py:163-192 | the first steps' loops compute the prepared record |
| XmlMapper.XMLMapper.RenameNames | src/xmigrate/xml_mapper.py:163-169 | the loop over name children renames each one |
| XmlMapper.XMLMapper.CollectModalities | src/xmigrate/xml_mapper.py:185-189 | the loop collects exactly the non-empty modalities (see ModalitiesExact) |
| XmlMapper.XMLMapper.DeleteTagged | src/xmigrate/xml_mapper.py:194-197 | the deletion loop keeps exactly the untagged children (see KeepUntaggedExact) |
| XmlMapper.XMLMapper.RemapAll | src/xmigrate/xml_mapper.py:199-208 | the loop over the remap table equals all passes (see RemapTagsPointwise) |
| XmlMapper.XMLMapper.RemapPass | src/xmigrate/xml_mapper.py:201-208 | one pass over the children, stopping at the first unmapped identifier |
| XmlMapper.XMLMapper.RewriteUrisOf | src/xmigrate/xml_mapper.py:218-219 | the loop over file children rewrites each one, stopping at the first mismatch |
| XmlMapper.XMLMapper.RewriteNestedUris | src/xmigrate/xml_mapper.py:221-227 | the nested loop over out and resources children does the same one level down |
| MigrationSpec.RefreshListing | src/xmigrate/main.py:372 | `clearcache` only logs a refresh; nothing else in the state changes |
| MigrationSpec.PostIfAbsent | src/xmigrate/main.py:365-372 | the POST-unless-listed step changes only the request log |
| MigrationSpec.Upload | src/xmigrate/main.py:359-372 | mapping and posting change only the request log |
| MigrationSpec.RememberOrCount | src/xmigrate/main.py:374-380 | the subject's read-back sends nothing and makes no create call |
| MigrationSpec.RememberWithRetry | src/xmigrate/main.py:421-440 | the retried read-back changes only the log, the identifier table and the counters |
| MigrationSpec.CreateProject | src/xmigrate/main.py:312-334 | one project call is traced; it passes only for a source project that exists |
| MigrationSpec.CreateSubject | src/xmigrate/main.py:336-380 | one subject call is traced |
| MigrationSpec.CreateExperiment | src/xmigrate/main.py:382-440 | one experiment call is traced |
| MigrationSpec.CreateScan | src/xmigrate/main.py:442-504 | one scan call is traced |
| MigrationSpec.CreateAssessor | src/xmigrate/main.py:506-574 | one assessor call is traced |
| MigrationProperties.CheckDatatypesExact | src/xmigrate/main.py:101-130 | the check fails exactly when a source datatype, ignoring `xdat:`, is not enabled on the destination, and it names exactly those |
| MigrationProperties.CheckDatatypesIgnoresXdat | src/xmigrate/main.py:116-125 | `xdat:` names on either side never change the verdict |
| MigrationProperties.CollectKeepsOrder | src/xmigrate/main.py:345-357 | collecting a sharing entry keeps the table well formed and keeps insertion order: a new key goes last |
| MigrationProperties.CollectEntry | src/xmigrate/main.py:392-404 | the stored key names the entry found under the read key, or a fresh one, with the claim applied; the read key sees that same object; other objects are unchanged |
| MigrationProperties.UploadPosts | src/xmigrate/main.py:359-372 | the mapped record is posted exactly when mapping succeeds and the listing resolves without the label; nothing but a refresh is sent otherwise |
| MigrationProperties.PostIfAbsentPosts | src/xmigrate/main.py:365-372 | the body is posted exactly when the label is not listed, and no PUT is sent |
| MigrationProperties.SendLog | src/xmigrate/main.py:365-372 | sending appends to the log: one more POST for a POST, one more PUT for a PUT |
| MigrationProperties.RefreshLog | src/xmigrate/main.py:372 | a refresh posts nothing and puts nothing |
| MigrationProperties.ProjectGrows | src/xmigrate/main.py:312-334 | the project call only adds requests to the log, none of them a PUT |
| MigrationProperties.SubjectGrows | src/xmigrate/main.py:336-380 | the same for the subject call |
| MigrationProperties.ExperimentGrows | src/xmigrate/main.py:382-440 | the same for the experiment call |
| MigrationProperties.ScanGrows | src/xmigrate/main.py:442-504 | the same for the scan call |
| MigrationProperties.AssessorGrows | src/xmigrate/main.py:506-574 | the same for the assessor call |
| MigrationProperties.ProjectPostedWhenAbsent | src/xmigrate/main.py:323-328 | a project is posted only when the destination id is not listed |
| MigrationProperties.SubjectPostedWhenAbsent | src/xmigrate/main.py:347-366 | a subject is posted only by its owning project, and only when its label is not listed |
| MigrationProperties.ExperimentPostedWhenAbsent | src/xmigrate/main.py:394-414 | an experiment is posted only by its owning project, and only when its label is not listed |
| MigrationProperties.ScanPostedWhenAbsent | src/xmigrate/main.py:455-488 | a scan is posted only when its experiment is owned here, and only when its id is not listed |
| MigrationProperties.AssessorPostedWhenAbsent | src/xmigrate/main.py:519-550 | an assessor is posted only by its owning project, and only when its label is not listed |
| MigrationProperties.RetryPostsNothing | src/xmigrate/main.py:421-440 | the retried read-back posts nothing |
| MigrationProperties.SubjectOwnedElsewhere | src/xmigrate/main.py:347-352 | a subject owned elsewhere only joins its label's entry as a participant: nothing is sent or recorded |
| MigrationProperties.SubjectOwnedHere | src/xmigrate/main.py:353-357 | the owning project claims the entry under the label |
| MigrationProperties.ExperimentEntryReadByIdStoredByLabel | src/xmigrate/main.py:392-404 | an experiment entry is read under the experiment id but stored under its label |
| MigrationProperties.ExperimentParticipantsReplaced | src/xmigrate/main.py:392-398 | when no entry is keyed by the id, a non-owning project becomes the label's only participant, and earlier participants are lost |
| MigrationProperties.AssessorEntryReadByIdStoredByLabel | src/xmigrate/main.py:517-529 | the same id/label split for assessors |
| MigrationProperties.ProjectRecorded | src/xmigrate/main.py:330-334 | a passing project call records source id to destination id |
| MigrationProperties.SubjectRecordedOrCounted | src/xmigrate/main.py:373-380 | an owned subject either records the id read back, or counts one failure and records nothing; the failure never escapes |
| MigrationProperties.RetryCountsOnce | src/xmigrate/main.py:421-440 | a failed first read counts once and refreshes; a pass records the last id read; an escaping failure was counted |
| MigrationProperties.ProjectAndScanNeverCount | src/xmigrate/main.py:489-504 | the project and scan calls never move a counter |
| MigrationProperties.SubjectCountsAtMostOnce | src/xmigrate/main.py:373-380 | a subject call moves only the subject counter, by at most one |
| MigrationProperties.ExperimentCountsAtMostOnce | src/xmigrate/main.py:421-440 | an experiment call moves only the experiment counter, by at most one |
| MigrationProperties.AssessorCountsAtMostOnce | src/xmigrate/main.py:551-574 | an assessor call moves only the assessor counter, by at most one |
| MigrationProperties.ScanOfSharedExperimentSkipped | src/xmigrate/main.py:455-467 | a scan of an experiment owned elsewhere changes nothing but the trace |
| MigrationProperties.ScanKeepsIdentifier | src/xmigrate/main.py:489-504 | a created scan's table entry maps its id to itself |
| MigrationProperties.FollowsStep | src/xmigrate/main.py:607-621 | proof helper, not behaviour of its own: one call extends the trace by a one-step order |
| MigrationProperties.FollowsThen | src/xmigrate/main.py:607-621 | proof helper, not behaviour of its own: following one order and then the next follows their concatenation |
| MigrationProperties.FollowsStop | src/xmigrate/main.py:607-621 | proof helper, not behaviour of its own: stopping inside the first order still follows the concatenation |
| MigrationProperties.SupportedPrefix | src/xmigrate/main.py:611-614 | proof helper, not behaviour of its own: a prefix of a supported trace is supported |
| MigrationProperties.SupportedConcat | src/xmigrate/main.py:611-614 | proof helper, not behaviour of its own: two supported traces concatenate to a supported one |
| MigrationProperties.SupportedThen | src/xmigrate/main.py:611-614 | proof helper, not behaviour of its own: supported steps appended in two stages stay supported |
| MigrationProperties.WalkScansTrace | src/xmigrate/main.py:616-617 | the scan loop makes its calls in order and stops at the first exception |
| MigrationProperties.WalkAssessorsTrace | src/xmigrate/main.py:619-620 | the same for the assessor loop |
| MigrationProperties.ChildrenTrace | src/xmigrate/main.py:616-620 | an experiment's scans, then its assessors, stopping at the first exception |
| MigrationProperties.WalkExperimentTrace | src/xmigrate/main.py:610-620 | an unsupported datatype raises before anything happens; otherwise the experiment, its scans, then its assessors |
| MigrationProperties.WalkExperimentsTrace | src/xmigrate/main.py:609-620 | a subject's experiments in order, stopping at the first exception |
| MigrationProperties.WalkSubjectTrace | src/xmigrate/main.py:608-620 | the subject, then its experiments |
| MigrationProperties.WalkSubjectsTrace | src/xmigrate/main.py:607-621 | the walk's calls are a prefix of the parents-first order, all of it when nothing escaped; every processed experiment is supported; no PUT is sent |
| MigrationProperties.ExperimentsOrderHas | src/xmigrate/main.py:609-613 | experiment j's call sits in the experiments order |
| MigrationProperties.SubjectsOrderHas | src/xmigrate/main.py:607-613 | the call for subject i's experiment j sits in the subjects order |
| MigrationProperties.UnsupportedStopsWalk | src/xmigrate/main.py:611-614 | an experiment with an unsupported datatype makes the walk raise, and is never processed itself |
| MigrationProperties.CreateResourcesTrace | src/xmigrate/main.py:576-621 | the project call, then the tree unless `rsync_only`, stopping at the first exception; no PUT is sent |
| MigrationProperties.FindDestinationIdFirst | src/xmigrate/main.py:672-683 | the destination id comes from the first mapper, in list order, that knows the source id; it is none only when no mapper knows it |
| MigrationProperties.EntryRequestsCount | src/xmigrate/main.py:685-701 | an entry yields one PUT per participating project, repeats included, and none when no mapper knows its id |
| MigrationProperties.AllPuts | src/xmigrate/main.py:685-701 | proof helper, not behaviour of its own: a log made only of PUTs counts one PUT per request |
| MigrationProperties.PutCountConcat | src/xmigrate/main.py:685-701 | proof helper, not behaviour of its own: PUT counts add up over concatenation |
| MigrationProperties.TableRequestsExact | src/xmigrate/main.py:669-701 | a table's requests are exactly the shares of its keys, and all of them are PUTs |
| MigrationProperties.SharingRequestsArePuts | src/xmigrate/main.py:664-775 | `_apply_sharing` sends only PUTs, one per participant of each entry whose destination id is known |
| MigrationProperties.RunOrderSplit | src/xmigrate/main.py:785-806 | proof helper, not behaviour of its own: the run's order splits at any pair |
| MigrationProperties.GrowsThen | src/xmigrate/main.py:785-806 | proof helper, not behaviour of its own: growing the log twice grows it once |
| MigrationProperties.RunPairsTrace | src/xmigrate/main.py:785-806 | the pair loop makes the calls of each pair in list order, stops at the first exception, and sends no PUT |
| MigrationProperties.RunPairsConfigs | src/xmigrate/main.py:797-798 | a pair loop that passes had every configuration copy pass: `_set_project_configs` raising ends the run |
| MigrationProperties.RunSharesLast | src/xmigrate/main.py:777-809 | a failed datatype check, or a failure in `_create_users`, changes nothing; otherwise the pairs run in order, and the sharing PUTs are sent once at the end, only when the users, every pair and every configuration copy passed and the lists have equal length |
| MigrationProperties.RunUnequalLengths | src/xmigrate/main.py:785-787 | with lists of different length no PUT is sent; when nothing raised before, the common pairs are all migrated before `zip(strict=True)` raises |
| MigrationProperties.RsyncPathStopsEveryPair | src/xmigrate/main.py:578-581 | as written, a pair whose project call passes raises AttributeError before its first subject, which the corrected walk would create |
| MigrationProperties.SharingAsWrittenFailsWhenNeeded | src/xmigrate/main.py:672-679 | as written, whenever the corrected step would send a PUT, the sharing step raises AttributeError instead |
| MigrationProperties.ShareNeedsMapper | src/xmigrate/main.py:672-683 | proof helper, not behaviour of its own: a sharing request needs at least one mapper |
| MigrationProperties.GetDestinationIdMissing | src/xmigrate/main.py:669-701 | a subject shared into a second project: the corrected step sends its PUT, while the step as written raises |
| Migration.IdMapsOf | src/xmigrate/main.py:158-165 | the identifier tables of the mappers, one per mapper, in order |
| Migration.Migration.constructor | src/xmigrate/main.py:158-176 | one fresh mapper per pair, each with an empty table; pair 0 is selected; the counters are zero and the tables empty |
| Migration.Migration.Create | src/xmigrate/main.py:158-168 | `all_source_info[0]` raises exactly when a list is empty; otherwise a valid migration with nothing sent |
| Migration.Migration.RefreshListing | src/xmigrate/main.py:372 | the fields change as `MigrationSpec.RefreshListing` says |
| Migration.Migration.PostIfAbsent | src/xmigrate/main.py:365-372 | the fields change as `MigrationSpec.PostIfAbsent` says |
| Migration.Migration.Upload | src/xmigrate/main.py:359-372 | the fields change as `MigrationSpec.Upload` says |
| Migration.Migration.CountFailure | src/xmigrate/main.py:379-380 | exactly one counter, the kind's, goes up by one |
| Migration.Migration.RememberOrCount | src/xmigrate/main.py:374-380 | the fields change as `MigrationSpec.RememberOrCount` says |
| Migration.Migration.RememberWithRetry | src/xmigrate/main.py:421-440 | the fields change as `MigrationSpec.RememberWithRetry` says |
| Migration.Migration.CreateProject | src/xmigrate/main.py:312-334 | the fields change as `MigrationSpec.CreateProject` says |
| Migration.Migration.CreateSubject | src/xmigrate/main.py:336-380 | the fields change as `MigrationSpec.CreateSubject` says |
| Migration.Migration.CreateExperiment | src/xmigrate/main.py:382-440 | the fields change as `MigrationSpec.CreateExperiment` says |
| Migration.Migration.CreateScan | src/xmigrate/main.py:442-504 | the fields change as `MigrationSpec.CreateScan` says |
| Migration.Migration.CreateAssessor | src/xmigrate/main.py:506-574 | the fields change as `MigrationSpec.CreateAssessor` says |
| Migration.Migration.MigrateExperiment | src/xmigrate/main.py:610-620 | the datatype check, the experiment and the loops over its scans and assessors change the fields as `WalkExperiment` says |
| Migration.Migration.MigrateSubject | src/xmigrate/main.py:608-620 | one subject and its experiment loop change the fields as `WalkSubject` says |
| Migration.Migration.CreateResources | src/xmigrate/main.py:576-621 | the fields change as `MigrationSpec.CreateResources` says (see CreateResourcesTrace) |
| Migration.Migration.FindDestination | src/xmigrate/main.py:672-683 | the loop over the mappers returns `FindDestinationId` (see FindDestinationIdFirst) |
| Migration.Migration.ShareEntry | src/xmigrate/main.py:685-701 | the loop over the projects appends `Shares`, one PUT per project |
| Migration.Migration.ShareRecord | src/xmigrate/main.py:669-701 | one entry appends `EntryRequests` |
| Migration.Migration.ShareTable | src/xmigrate/main.py:669-701 | the loop over a table's keys appends `TableRequests` (see TableRequestsExact) |
| Migration.Migration.ApplySharing | src/xmigrate/main.py:664-775 | the three tables append `SharingRequests` (see SharingRequestsArePuts) |
| Migration.Migration.Select | src/xmigrate/main.py:789-791 | the current mapper, source and destination become those of pair i |
| Migration.Migration.MigratePair | src/xmigrate/main.py:789-806 | pair i is selected and migrated; mapper i keeps its table and every other mapper is unchanged |
| Migration.Migration.MigratePairs | src/xmigrate/main.py:785-806 | the loop over the pairs, each migrated and then its configuration copied, changes the state as `RunPairs` says (see RunPairsTrace and RunPairsConfigs) |
| Migration.Migration.Run | src/xmigrate/main.py:777-809 | the datatype check, the users, the pairs and the sharing change the state as `MigrationSpec.Run` says (see RunSharesLast and RunUnequalLengths) |

## Left out

- HTTP and I/O are parameters: the source connection's records are `Env.sourceProjects`, and the destination's listings are `Env.server` applied to the request log. How the server reacts to a POST or PUT is not modelled, and neither is caching of listings beyond the logged refresh.
- `_get_source_xml` (main.py:178-197) is modelled as a lookup in `Env.sourceProjects`; a missing project is `SourceNotFound`.
- The rsync step (main.py:580-602) is not modelled: copying files, `mkdir` and `RuntimeError` from rsync. The corrected walk proceeds as if it passed. As written it fails earlier (see Findings).
- `_create_users` (main.py:232-269) and `_set_project_configs` (main.py:199-230) are given only by whether they raise: `Env.createUsers`, and `Env.projectConfigs` for each pair. `_create_users` raises ValueError when two profiles' ids differ (main.py:250-252), and its requests can fail. `_set_project_configs` raises RuntimeError at main.py:210-211 and 228-230. A failure of the first ends the run before any pair. A failure of the second ends it after that pair's walk, before the later pairs and the sharing step. What they read and write (user profiles, project configurations, and the configuration PUTs) is not modelled, and those PUTs are not in the request log.
- `_get_resource_metadata`, `_export_id_map`, `_refresh_catalogue(s)` and `create_custom_forms_json` are left out. They only read from the servers or write files, and their requests are not logged. `_refresh_catalogues` also POSTs, and those POSTs are not in the log. `_export_id_map` reads `id_map[subject]` from a `defaultdict`, which inserts an empty table; that insertion is not modelled either. Errors these calls raise are not modelled.
- Logging, timing and the command-line entry points (`cli.py` and the `__main__` block at main.py:815-881) are left out.
- `register_namespaces` and XML serialisation (`ET.tostring`) are left out; records are values.
- The destination's datatype list is `Env.destinationDatatypes`. An experiment's `fulldata["meta"]["xsi:type"]` is its `xsiType` field, always present; the KeyError when it is absent is not modelled.
- `get_destination_id`, which XMLMapper does not define, is modelled as the lookup the sharing step evidently expects: the `id_map` table of the kind, with KeyError on a miss (`XmlMapper.GetDestinationId`).
- A failed PUT in `_apply_sharing` is only logged by the source; the model sends every PUT and has no response.
- XmlMapper.XMLMapper.MapXml: on an exception the source leaves the element partly rewritten in place. The model returns the error and no element, because every caller discards the element then.
- XmlMapper.UpdatedIdMap: `update_id_map` stores `str(getattr(destination, "id", destination))` (xml_mapper.py:140-141). The model is given the destination identifier as a string, which is what that expression yields for the listing objects the create calls pass. A read-back that fails with AttributeError is modelled like one that fails with KeyError.
- `MigrationSpec.ValidTable` is proved preserved by `CollectKeepsOrder`, but it is not part of the class invariant of `Migration`.
- The code is sequential, keeps only four failure counters (main.py:170-173), and lets an exception end the run. The model follows the code.

## Findings

| source | as written | input that shows it | evidently intended | confidence | as-written member | corrected member |
|---|---|---|---|---|---|---|
| src/xmigrate/main.py:580-581 | `_create_resources` reads `destination_info.rsync_path`, which the `ProjectInfo` dataclass (xml_mapper.py:38-43) does not declare, so AttributeError is raised right after the project is created | any pair whose project call passes and whose source project has a subject | copy the files, then walk the subjects | not executed; the `__main__` block (main.py:848-864) passes `rsync_path=`, which the dataclass rejects, and cli.py:63-74 does not set it | MigrationSpec.CreateResourcesAsWritten, MigrationProperties.RsyncPathStopsEveryPair | MigrationSpec.CreateResources, MigrationProperties.CreateResourcesTrace |
| src/xmigrate/main.py:672-679 | `mapper.get_destination_id(...)` is called, but XMLMapper has no such method; AttributeError escapes `except KeyError`, so no sharing PUT is ever sent | one subject shared into a second project whose identifier the first mapper knows (MigrationProperties.GetDestinationIdMissing) | look the identifier up in the mapper's `id_map` and send the PUTs | not executed | MigrationSpec.SharingAsWritten, MigrationProperties.SharingAsWrittenFailsWhenNeeded | MigrationSpec.SharingRequests, MigrationProperties.TableRequestsExact |
