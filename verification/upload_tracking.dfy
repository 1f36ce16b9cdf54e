/**
 * The upload reconciliation shared by `handle_files` in the Chat Completions and
 * Assistants drivers (streamlit_openai/chat_completions.py:193-216,
 * streamlit_openai/assistants.py:105-128), and the de-duplication half of it that the
 * Responses-API driver also has (streamlit_openai/chat.py:260-270).
 */
module UploadTracking {

  import opened Common

  /**
   * A tracked upload. The tracked-file class itself is not part of this model: its
   * `removed` attribute is read as it stands, and `remove()` calls are logged by the
   * drivers rather than given an effect.
   */
  datatype TrackedUpload = TrackedUpload(upload: Upload, removed: bool)

  function TrackedIds(tracked: seq<TrackedUpload>): (ids: seq<string>) {
    seq(|tracked|, j requires 0 <= j < |tracked| => tracked[j].upload.fileId)
  }

  /** A freshly tracked upload, not yet removed. */
  function Track(uploads: seq<Upload>): (ts: seq<TrackedUpload>) {
    seq(|uploads|, j requires 0 <= j < |uploads| => TrackedUpload(uploads[j], false))
  }

  /**
   * The uploads of one `handle_files` call that get tracked: those whose file id is
   * neither among the `known` ids (every file tracked so far, removed or not) nor
   * carried by an earlier upload of the same call.
   */
  function NewUploads(known: seq<string>, uploads: seq<Upload>): seq<Upload>
    decreases |uploads|
  {
    if uploads == [] then []
    else
      var earlier := NewUploads(known, uploads[..|uploads| - 1]);
      var u := uploads[|uploads| - 1];
      if u.fileId in known + UploadIds(earlier) then earlier else earlier + [u]
  }

  predicate DistinctIds(ids: seq<string>) {
    forall i, j :: 0 <= i < j < |ids| ==> ids[i] != ids[j]
  }

  /**
   * Every upload ends up tracked exactly once: the new uploads come from the list, in
   * list order, carry pairwise different ids that were not known, and every id of the
   * list is known or new afterwards.
   */
  lemma {:induction false} NewUploadsTrackOnce(known: seq<string>, uploads: seq<Upload>)
    ensures var r := NewUploads(known, uploads);
      && (forall u :: u in r ==> u in uploads)
      && DistinctIds(UploadIds(r))
      && (forall id :: id in UploadIds(r) ==> id !in known)
      && (forall u :: u in uploads ==> u.fileId in known + UploadIds(r))
      && |r| <= |uploads|
    decreases |uploads|
  {
    if uploads != [] {
      var init := uploads[..|uploads| - 1];
      var u := uploads[|uploads| - 1];
      NewUploadsTrackOnce(known, init);
      var earlier := NewUploads(known, init);
      assert uploads == init + [u];
      if u.fileId !in known + UploadIds(earlier) {
        assert UploadIds(earlier + [u]) == UploadIds(earlier) + [u.fileId];
      }
    }
  }

  /** Ids present in a known list are never tracked again, so a repeated call adds nothing. */
  lemma {:induction false} NewUploadsIdempotent(known: seq<string>, uploads: seq<Upload>)
    requires forall u :: u in uploads ==> u.fileId in known
    ensures NewUploads(known, uploads) == []
    decreases |uploads|
  {
    if uploads != [] {
      NewUploadsIdempotent(known, uploads[..|uploads| - 1]);
    }
  }

  /**
   * Positions of the tracked files whose `remove()` is called: those not already
   * removed whose file id is not among the `listed` ids, in tracked order.
   */
  function Removals(tracked: seq<TrackedUpload>, listed: seq<string>): seq<nat>
    decreases |tracked|
  {
    if tracked == [] then []
    else
      var k := |tracked| - 1;
      Removals(tracked[..k], listed) + (if !tracked[k].removed && tracked[k].upload.fileId !in listed then [k] else [])
  }

  /** `remove()` is called exactly once on exactly the stale, not yet removed files, in order. */
  lemma {:induction false} RemovalsExact(tracked: seq<TrackedUpload>, listed: seq<string>)
    ensures var r := Removals(tracked, listed);
      && (forall k: nat :: k in r <==> k < |tracked| && !tracked[k].removed && tracked[k].upload.fileId !in listed)
      && (forall i, j :: 0 <= i < j < |r| ==> r[i] < r[j])
    decreases |tracked|
  {
    if tracked != [] {
      var k := |tracked| - 1;
      RemovalsExact(tracked[..k], listed);
      var front := tracked[..k];
      var r0 := Removals(front, listed);
      var last: seq<nat> := if !tracked[k].removed && tracked[k].upload.fileId !in listed then [k] else [];
      assert Removals(tracked, listed) == r0 + last;
      forall i | 0 <= i < |r0|
        ensures r0[i] < k
      {
        assert r0[i] in r0;
      }
      forall k': nat | k' < k
        ensures tracked[k'] == front[k']
      {
      }
    }
  }

  /** `[x.uploaded_file.file_id for x in self.tracked_files]` */
  method TrackedIdsOf(tracked: seq<TrackedUpload>) returns (ids: seq<string>)
    ensures ids == TrackedIds(tracked)
  {
    ids := [];
    for i := 0 to |tracked|
      invariant ids == TrackedIds(tracked[..i])
    {
      assert tracked[..i + 1][..i] == tracked[..i];
      ids := ids + [tracked[i].upload.fileId];
    }
    assert tracked[..|tracked|] == tracked;
  }

  /**
   * The first loop of `handle_files`: each upload whose id is not among the ids
   * tracked so far (recomputed every iteration) is appended, not yet removed.
   */
  method TrackUploads(tracked: seq<TrackedUpload>, us: seq<Upload>) returns (r: seq<TrackedUpload>)
    ensures r == tracked + Track(NewUploads(TrackedIds(tracked), us))
  {
    ghost var known := TrackedIds(tracked);
    r := tracked;
    for i := 0 to |us|
      invariant r == tracked + Track(NewUploads(known, us[..i]))
    {
      var ids := TrackedIdsOf(r);
      TrackNewUploadsStep(tracked, us, i);
      if us[i].fileId !in ids {
        r := r + [TrackedUpload(us[i], false)];
      }
    }
    assert us[..|us|] == us;
  }

  /** The second loop of `handle_files`: the positions whose `remove()` is called, in order. */
  method StaleFiles(tracked: seq<TrackedUpload>, us: seq<Upload>) returns (positions: seq<nat>)
    ensures positions == Removals(tracked, UploadIds(us))
  {
    var listed := UploadIds(us);
    positions := [];
    for k := 0 to |tracked|
      invariant positions == Removals(tracked[..k], listed)
    {
      assert tracked[..k + 1][..k] == tracked[..k];
      if !tracked[k].removed && tracked[k].upload.fileId !in listed {
        positions := positions + [k];
      }
    }
    assert tracked[..|tracked|] == tracked;
  }

  /** One iteration of the tracking loop: the upload is tracked exactly when its id is not among the tracked ids. */
  lemma {:induction false} TrackNewUploadsStep(tracked: seq<TrackedUpload>, us: seq<Upload>, i: nat)
    requires i < |us|
    ensures var known := TrackedIds(tracked);
      var now := tracked + Track(NewUploads(known, us[..i]));
      tracked + Track(NewUploads(known, us[..i + 1]))
        == if us[i].fileId in TrackedIds(now) then now else now + [TrackedUpload(us[i], false)]
  {
    var known := TrackedIds(tracked);
    var earlier := NewUploads(known, us[..i]);
    assert us[..i + 1][..i] == us[..i];
    TrackedIdsAppend(tracked, earlier);
    if us[i].fileId !in known + UploadIds(earlier) {
      assert Track(earlier + [us[i]]) == Track(earlier) + [TrackedUpload(us[i], false)] by {
        assert (earlier + [us[i]])[..|earlier|] == earlier;
      }
    }
  }

  /** The ids of the tracked files after new uploads are tracked: the old ids, then the new uploads' ids. */
  lemma {:induction false} TrackedIdsAppend(tracked: seq<TrackedUpload>, uploads: seq<Upload>)
    ensures TrackedIds(tracked + Track(uploads)) == TrackedIds(tracked) + UploadIds(uploads)
  {
    var all := tracked + Track(uploads);
    var lhs := TrackedIds(all);
    var rhs := TrackedIds(tracked) + UploadIds(uploads);
    assert |lhs| == |rhs|;
    forall j | 0 <= j < |lhs| ensures lhs[j] == rhs[j] {
      if j >= |tracked| {
        assert all[j] == Track(uploads)[j - |tracked|];
      }
    }
  }
}
