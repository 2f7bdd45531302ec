/** core/sync/merge.go: the three-way merge of one path. */
module Merging {
  import opened SyncTypes

  function Merge(local: Option<LocalState>, remote: Option<RemoteState>, base: Option<BaseState>): Action {
    var localChanged := LocalDiffersFromBase(local, base);
    var remoteChanged := RemoteDiffersFromBase(remote, base);
    if local.None? && base.None? then Nothing
    else if local.None? then Trash
    else if base.None? then Upload
    else if localChanged && remoteChanged then Conflict
    else if localChanged then Upload
    else if remoteChanged then Reupload
    else Nothing
  }

  predicate LocalDiffersFromBase(local: Option<LocalState>, base: Option<BaseState>) {
    if local.None? || base.None? then local.Some? != base.Some?
    else local.value.size != base.value.size || Seconds(local.value.mtime) != Seconds(base.value.mtime)
  }

  /** Remote changes are judged by identity and content hash, never by Drive's version counter. */
  predicate RemoteDiffersFromBase(remote: Option<RemoteState>, base: Option<BaseState>) {
    if base.None? then remote.Some?
    else if remote.None? then base.value.remoteId != ""
    else if remote.value.id != base.value.remoteId then true
    else if remote.value.md5 != NoDigest && base.value.remoteMd5 != NoDigest then
      remote.value.md5 != base.value.remoteMd5
    else remote.value.size != base.value.size
  }

  /** "Local Is Law" for one owned path: when hashes are available, doing nothing means
      exactly that the row's own object is listed with the row's hash and the local
      file still has the row's stamp; any other situation acts on the local side's behalf. */
  lemma NothingMeansAgreement(local: Option<LocalState>, remote: Option<RemoteState>, base: BaseState)
    requires base.remoteId != "" && base.remoteMd5 != NoDigest
    requires remote.Some? ==> remote.value.md5 != NoDigest
    ensures Merge(local, remote, Some(base)) == Nothing <==>
            && local.Some?
            && local.value.size == base.size
            && Seconds(local.value.mtime) == Seconds(base.mtime)
            && remote.Some?
            && remote.value.id == base.remoteId
            && remote.value.md5 == base.remoteMd5
    ensures Merge(local, remote, Some(base)) == Trash <==> local.None?
    ensures local.Some? ==> Merge(local, remote, Some(base)) in {Nothing, Upload, Reupload, Conflict}
  {
  }
  /** Equal modification times, to the second. */
  lemma SameSecondExactlyWhen(local: LocalState, remote: Option<RemoteState>, base: BaseState)
    requires local.size == base.size
    ensures Merge(Some(local), remote, Some(base)) in {Nothing, Reupload} <==>
            local.mtime - local.mtime % 1_000_000_000 == base.mtime - base.mtime % 1_000_000_000
    ensures local.mtime - base.mtime >= 1_000_000_000 || base.mtime - local.mtime >= 1_000_000_000 ==>
              Merge(Some(local), remote, Some(base)) in {Upload, Conflict}
  {
    WholeSeconds(local.mtime);
    WholeSeconds(base.mtime);
  }

  lemma WholeSeconds(t: Time)
    ensures t - t % 1_000_000_000 == Seconds(t) * 1_000_000_000
  {
  }

  /** The whole decision for a path with a row and a local file, in terms of what changed. */
  lemma ActionExactlyWhen(local: LocalState, remote: Option<RemoteState>, base: BaseState)
    ensures var localChanged := local.size != base.size
                                || local.mtime - local.mtime % 1_000_000_000 != base.mtime - base.mtime % 1_000_000_000;
      var remoteChanged :=
        (remote.None? && base.remoteId != "")
        || (remote.Some? && remote.value.id != base.remoteId)
        || (remote.Some? && remote.value.md5 != base.remoteMd5 && remote.value.md5 != NoDigest && base.remoteMd5 != NoDigest)
        || (remote.Some? && remote.value.size != base.size && (remote.value.md5 == NoDigest || base.remoteMd5 == NoDigest));
      && (Merge(Some(local), remote, Some(base)) == Conflict <==> localChanged && remoteChanged)
      && (Merge(Some(local), remote, Some(base)) == Upload <==> localChanged && !remoteChanged)
      && (Merge(Some(local), remote, Some(base)) == Reupload <==> !localChanged && remoteChanged)
      && (Merge(Some(local), remote, Some(base)) == Nothing <==> !localChanged && !remoteChanged)
  {
    WholeSeconds(local.mtime);
    WholeSeconds(base.mtime);
  }

  /** A new file is sent, a file that is gone trashed, and what is on Drive alone left there. */
  lemma OneSidedActions(local: LocalState, remote: Option<RemoteState>, base: BaseState)
    ensures Merge(Some(local), remote, None) == Upload
    ensures Merge(None, remote, Some(base)) == Trash
    ensures Merge(None, remote, None) == Nothing
  {
  }
}
