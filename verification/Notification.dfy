/** What the success record and the webhook say about a job's artifacts. */
module Notification {
  import opened Jobs
  import opened Text
  import opened ObjectKeys
  import opened DirectoryUpload
  import Pipeline

  datatype Payload = Payload(
    videoID: string, success: bool, processedPath: string, previewPath: string, hlsPath: string, audioPath: string,
    thumbnailPaths: seq<string>, media: Option<Metadata>)

  const THUMBNAILS: nat := 5

  /** %03d: zeros up to three digits. */
  function Padded(n: nat): string {
    var digits := Decimal(n);
    (if |digits| == 1 then "00" else if |digits| == 2 then "0" else "") + digits
  }

  function ThumbnailName(i: nat): string {
    "thumb_" + Padded(i) + ".jpg"
  }

  function ThumbnailPaths(prefix: string): seq<string> {
    seq(THUMBNAILS, i requires 0 <= i < THUMBNAILS => prefix + "/" + ThumbnailName(i + 1))
  }

  /** Only what the pipeline produced is listed. */
  method BuildJobArtifacts(videoID: string, processedID: string, result: Pipeline.ProcessingResult)
    returns (artifacts: Artifacts)
    ensures artifacts.video == "processed/" + processedID
    ensures artifacts.thumbnails == if result.thumbnailsDir != "" then "thumbnails/" + videoID else ""
    ensures artifacts.audio == if result.audioPath != "" then "audio/" + videoID + ".mp3" else ""
    ensures artifacts.preview == if result.previewPath != "" then "preview/" + videoID + "_preview.mp4" else ""
    ensures artifacts.hls == if result.streamingDir != "" then "hls/" + videoID else ""
  {
    artifacts := Artifacts("processed/" + processedID, "", "", "", "");
    if result.thumbnailsDir != "" {
      artifacts := artifacts.(thumbnails := "thumbnails/" + videoID);
    }
    if result.audioPath != "" {
      artifacts := artifacts.(audio := "audio/" + videoID + ".mp3");
    }
    if result.previewPath != "" {
      artifacts := artifacts.(preview := "preview/" + videoID + "_preview.mp4");
    }
    if result.streamingDir != "" {
      artifacts := artifacts.(hls := "hls/" + videoID);
    }
  }

  /** What a webhook about a job says, given the job's record: success exactly for the status done, and
      artifacts and media data only then. */
  predicate Tells(p: Payload, videoID: string, state: Job) {
    && p.videoID == videoID && (p.success <==> state.status == Done)
    && p.media == (if p.success then state.metadata else None)
    && (p.success && state.artifacts.Some? ==>
          var artifacts := state.artifacts.value;
          && p.processedPath == artifacts.video && p.previewPath == artifacts.preview
          && p.hlsPath == artifacts.hls && p.audioPath == artifacts.audio
          && p.thumbnailPaths == if artifacts.thumbnails == "" then [] else FivePaths(artifacts.thumbnails))
    && (!(p.success && state.artifacts.Some?) ==>
          && p.processedPath == p.previewPath == p.hlsPath == p.audioPath == ""
          && p.thumbnailPaths == [])
  }

  function FivePaths(prefix: string): seq<string> {
    [prefix + "/thumb_001.jpg", prefix + "/thumb_002.jpg", prefix + "/thumb_003.jpg", prefix + "/thumb_004.jpg",
     prefix + "/thumb_005.jpg"]
  }

  lemma PathsAreFive(prefix: string)
    ensures ThumbnailPaths(prefix) == FivePaths(prefix)
  {
    hide ThumbnailName;
    forall i | 0 <= i < 5
      ensures ThumbnailPaths(prefix)[i] == FivePaths(prefix)[i]
    {
      NameOf(i + 1);
      Slash(prefix, ThumbnailName(i + 1));
      assert i == 0 || i == 1 || i == 2 || i == 3 || i == 4;
    }
  }

  lemma Slash(prefix: string, name: string)
    ensures prefix + "/" + name == prefix + ("/" + name)
  {
  }

  lemma NameOf(i: nat)
    requires 1 <= i <= 5
    ensures "/" + ThumbnailName(i) ==
            ["/thumb_001.jpg", "/thumb_002.jpg", "/thumb_003.jpg", "/thumb_004.jpg", "/thumb_005.jpg"][i - 1]
  {
    assert Decimal(i) == [Digit(i)];
  }

  method NotifyWebhook(videoID: string, state: Job) returns (payload: Payload)
    ensures Tells(payload, videoID, state)
  {
    hide Padded;
    var success := state.status == Done;
    payload := Payload(videoID, success, "", "", "", "", [], None);
    if success && state.artifacts.Some? {
      var artifacts := state.artifacts.value;
      payload := payload.(processedPath := artifacts.video, previewPath := artifacts.preview,
                          hlsPath := artifacts.hls, audioPath := artifacts.audio);
      if artifacts.thumbnails != "" {
        var paths := new string[5];
        var i := 1;
        while i <= 5
          invariant 1 <= i <= 6
          invariant paths[..i - 1] == ThumbnailPaths(artifacts.thumbnails)[..i - 1]
        {
          paths[i - 1] := artifacts.thumbnails + "/" + ("thumb_" + Padded(i) + ".jpg");
          i := i + 1;
        }
        assert paths[..] == paths[..5];
        PathsAreFive(artifacts.thumbnails);
        payload := payload.(thumbnailPaths := paths[..]);
      }
    }
    if success && state.metadata.Some? {
      payload := payload.(media := state.metadata);
    }
  }

  /** What thumbnail generation leaves in its directory. */
  function ThumbnailDir(images: seq<Content>): seq<Entry> {
    NumberedFrom(images, 1)
  }

  function NumberedFrom(images: seq<Content>, first: nat): seq<Entry> {
    seq(|images|, i requires 0 <= i < |images| => Entry(ThumbnailName(first + i), File(images[i])))
  }

  lemma {:induction false} NumberedUploads(prefix: string, images: seq<Content>, first: nat)
    ensures var uploads := Uploads(prefix, NumberedFrom(images, first));
      && |uploads| == |images|
      && forall i :: 0 <= i < |images| ==> uploads[i] == Placed(prefix + "/" + ThumbnailName(first + i), images[i])
    decreases |images|
  {
    hide ThumbnailName;
    if |images| > 0 {
      var entries := NumberedFrom(images, first);
      var rest := Uploads(prefix, NumberedFrom(images[1..], first + 1));
      NumberedUploads(prefix, images[1..], first + 1);
      assert entries[1..] == NumberedFrom(images[1..], first + 1);
      EntryOfFile(prefix, entries[0]);
      assert Uploads(prefix, entries) == EntryUploads(prefix, entries[0]) + rest;
      forall i | 1 <= i < |images|
        ensures Uploads(prefix, entries)[i] == Placed(prefix + "/" + ThumbnailName(first + i), images[i])
      {
        assert Uploads(prefix, entries)[i] == rest[i - 1];
      }
    }
  }

  lemma PaddedInjective(i: nat, j: nat)
    requires Padded(i) == Padded(j) && i < 10 && j < 10
    ensures i == j
  {
    var a, b := Padded(i), Padded(j);
    assert a[2..] == Decimal(i) && b[2..] == Decimal(j);
    DecimalInjective(i, j);
  }

  lemma ThumbnailKeys(prefix: string, images: seq<Content>)
    ensures var uploads := Uploads(prefix, ThumbnailDir(images));
      (|uploads| == THUMBNAILS && forall i :: 0 <= i < THUMBNAILS ==> uploads[i].key == ThumbnailPaths(prefix)[i]) <==>
      |images| == THUMBNAILS
  {
    hide ThumbnailName;
    NumberedUploads(prefix, images, 1);
  }

  lemma PathsApart(prefix: string, i: nat, j: nat)
    requires i < j < THUMBNAILS
    ensures ThumbnailPaths(prefix)[i] != ThumbnailPaths(prefix)[j]
  {
    hide Padded;
    var a, b := ThumbnailPaths(prefix)[i], ThumbnailPaths(prefix)[j];
    var p, q := Padded(i + 1), Padded(j + 1);
    assert a == prefix + "/" + "thumb_" + p + ".jpg" && b == prefix + "/" + "thumb_" + q + ".jpg";
    var n := |prefix| + 7;
    assert a[n..|a| - 4] == p && b[n..|b| - 4] == q;
    if p == q {
      PaddedInjective(i + 1, j + 1);
    }
  }

  /** The advertised thumbnails were all uploaded if and only if the upload ran to its end; its
      errors are only logged, and the paths are advertised all the same. */
  lemma AdvertisedWhenComplete(prefix: string, images: seq<Content>, done: seq<Placed>)
    requires |images| == THUMBNAILS && done <= Uploads(prefix, ThumbnailDir(images))
    ensures (forall path <- ThumbnailPaths(prefix) :: exists u <- done :: u.key == path) <==>
            done == Uploads(prefix, ThumbnailDir(images))
  {
    hide ThumbnailName, Uploads;
    var uploads, paths := Uploads(prefix, ThumbnailDir(images)), ThumbnailPaths(prefix);
    NumberedUploads(prefix, images, 1);
    assert forall i :: 0 <= i < THUMBNAILS ==> uploads[i].key == paths[i];
    if |done| < THUMBNAILS {
      var missing := paths[|done|];
      if u :| u in done && u.key == missing {
        var i :| 0 <= i < |done| && done[i] == u;
        PathsApart(prefix, i, |done|);
      }
      assert missing in paths;
    } else {
      assert done == uploads;
      forall path | path in paths
        ensures exists u <- done :: u.key == path
      {
        var i :| 0 <= i < THUMBNAILS && paths[i] == path;
        assert done[i].key == path && done[i] in done;
      }
    }
  }
}
