/** experiment_store/mlflow_io.py: what a run carries in the index, and how a read of it is answered. */
module Tracking {
  import opened Wrappers
  import opened Ids

  datatype Status = RUNNING | SCHEDULED | FINISHED | FAILED | KILLED

  /** Tags, params and metrics live in separate name spaces of a run. */
  datatype ContentKey = Tag(name: string) | Param(name: string) | Metric(name: string)

  type Content = map<ContentKey, string>

  datatype RunInfo = RunInfo(status: Status, deleted: bool, startTime: Option<int>, logged: Content) {
    function TagValue(name: string): Option<string> {
      if Tag(name) in logged then Some(logged[Tag(name)]) else None
    }

    /** An empty tag counts for no URI. */
    function ArtifactsUri(): Option<string> {
      if TagValue(ARTIFACTS_URI_TAG) == Some("") then None else TagValue(ARTIFACTS_URI_TAG)
    }

    /** What `resolve` and `search` return by default. */
    predicate Usable() { status == FINISHED && !deleted }
  }

  /** The run carries the identity it was created with, tag by tag. */
  predicate CarriesIdentity(info: RunInfo, id: Identity) {
    info.TagValue(ALIAS_TAG) == Some(id.alias) && info.TagValue(CHIP_TAG) == Some(id.chip) &&
    info.TagValue(REGION_TAG) == Some(id.region) && info.TagValue(WORKLOAD_TAG) == Some(id.workload) &&
    info.TagValue(SCHEMA_VERSION_TAG) == Some(SCHEMA_VERSION)
  }

  datatype RunRef = RunRef(runId: string, info: RunInfo)

  /** The answer to `get_run`: a run, or an exception with the codes it carries. */
  datatype Reply = Found(info: RunInfo) | Raised(errorCode: Option<string>, responseCode: Option<string>)

  const NOT_FOUND_CODES: set<string> := {"RESOURCE_DOES_NOT_EXIST"}

  /** `_is_not_found` */
  predicate IsNotFound(reply: Reply) {
    reply.Raised? &&
    ((reply.errorCode.Some? && reply.errorCode.value in NOT_FOUND_CODES) ||
     (reply.responseCode.Some? && reply.responseCode.value in NOT_FOUND_CODES))
  }

  /** `validate_content`, for tags: a caller never writes a reserved one. */
  predicate ValidContent(content: Content) {
    forall k :: k in content && k.Tag? ==> !IsReserved(k.name)
  }

  function CreationContent(id: Identity): Content {
    map n | n in CreationTags(id) :: Tag(n) := CreationTags(id)[n]
  }

  /** A run starts with its identity and without a URI. */
  lemma CreationFacts(id: Identity)
    ensures var info := RunInfo(RUNNING, false, None, CreationContent(id));
            CarriesIdentity(info, id) && info.ArtifactsUri() == None
  {
  }
}
