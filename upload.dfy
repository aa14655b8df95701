/** What `uploadBothFiles` does once the barrier starts it
    (api/index.js:120-201), and the response of the /download handler as a
    whole for a request whose two downloads both finish. Every foreign call
    (reading a staged file, sending an upload, deleting a staged file,
    writing the metadata document) is reduced to whether it succeeded. */
module Upload {
  import opened Options
  import opened Naming
  import opened Addresses
  import opened RequestGate

  /** Whether each foreign call of one `uploadBothFiles` run succeeds, were
      it reached. */
  datatype Effects = Effects(
    videoRead: bool, audioRead: bool,
    videoSent: bool, audioSent: bool,
    videoDeleted: bool, audioDeleted: bool,
    metadataSaved: bool)

  /** Every step before the metadata write succeeds. */
  predicate UploadSteps(fx: Effects) {
    fx.videoRead && fx.audioRead && fx.videoSent && fx.audioSent && fx.videoDeleted && fx.audioDeleted
  }

  /** The JSON body of a response; the `details` of error bodies (the raw
      exception) are not modelled. */
  datatype Body =
    | Uploaded(message: string, awsUrl: string, audioUrl: string, songId: string)
    | Failed(error: string)

  datatype Response = Response(status: nat, body: Body)

  /** The metadata document: `{song_id, audio_url, aws_url}`. */
  datatype MetadataRecord = MetadataRecord(songId: string, audioUrl: string, awsUrl: string)

  /** What one run did: the uploads it sent, the staged files it deleted, the
      metadata document it tried to write, whether that write succeeded, and
      the response. */
  datatype UploadRun = UploadRun(
    puts: seq<PutObject>, deleted: seq<string>, metadata: Option<MetadataRecord>, recorded: bool,
    response: Response)

  const UploadedMessage := "Video and audio uploaded successfully"
  const UploadFailedMessage := "Failed to upload to S3"
  const ProcessingFailedMessage := "An error occurred while processing the request"

  /** `uploadBothFiles`: read both staged files, send both uploads, derive the
      addresses, delete both staged files, write the metadata document (any
      failure of which is swallowed) and answer with both addresses. A
      failure of any earlier step ends the run with the upload error. */
  function UploadBothFiles(env: Env, names: Names, songId: string, fx: Effects): (r: UploadRun)
    ensures r.response.status == 200 <==> UploadSteps(fx)
    ensures UploadSteps(fx) ==>
              r.response.body == Uploaded(UploadedMessage, VideoUrl(env, names.fileName),
                                          AudioUrl(env, names.songFileName), songId)
    ensures !UploadSteps(fx) ==> r.response == Response(500, Failed(UploadFailedMessage))
    ensures r.puts == if fx.videoRead && fx.audioRead
      then [VideoUpload(env.bucketName, names.fileName), AudioUpload(env.bucketName, names.songFileName)]
      else []
    ensures r.deleted == if fx.videoRead && fx.audioRead && fx.videoSent && fx.audioSent && fx.videoDeleted
      then (if fx.audioDeleted then [names.videoPath, names.audioPath] else [names.videoPath])
      else []
    ensures r.metadata.Some? <==> UploadSteps(fx)
    ensures r.recorded <==> UploadSteps(fx) && fx.metadataSaved
    ensures r.metadata.Some? ==>
              r.metadata.value == MetadataRecord(songId, r.response.body.audioUrl, r.response.body.awsUrl)
  {
    if !(fx.videoRead && fx.audioRead) then
      UploadRun([], [], None, false, Response(500, Failed(UploadFailedMessage)))
    else
      var puts := [VideoUpload(env.bucketName, names.fileName), AudioUpload(env.bucketName, names.songFileName)];
      if !(fx.videoSent && fx.audioSent) then
        UploadRun(puts, [], None, false, Response(500, Failed(UploadFailedMessage)))
      else
        var videoUrl := VideoUrl(env, names.fileName);
        var audioUrl := AudioUrl(env, names.songFileName);
        if !fx.videoDeleted then
          // `unlinkSync` of the video file throws: nothing is deleted
          UploadRun(puts, [], None, false, Response(500, Failed(UploadFailedMessage)))
        else if !fx.audioDeleted then
          // the video file is gone, the audio one stays
          UploadRun(puts, [names.videoPath], None, false, Response(500, Failed(UploadFailedMessage)))
        else
          // the outcome of the metadata write is caught and ignored
          UploadRun(puts, [names.videoPath, names.audioPath],
                    Some(MetadataRecord(songId, audioUrl, videoUrl)), fx.metadataSaved,
                    Response(200, Uploaded(UploadedMessage, videoUrl, audioUrl, songId)))
  }

  /** A failed metadata write changes nothing but the record of its own
      outcome: the same uploads, deletions, attempted document and response,
      carrying the same addresses and `songId`, as a successful one. */
  lemma MetadataFailureSwallowed(env: Env, names: Names, songId: string, fx: Effects)
    ensures var failed := UploadBothFiles(env, names, songId, fx.(metadataSaved := false));
      var saved := UploadBothFiles(env, names, songId, fx.(metadataSaved := true));
      && failed.response == saved.response
      && failed.puts == saved.puts && failed.deleted == saved.deleted && failed.metadata == saved.metadata
      && !failed.recorded && (saved.recorded <==> UploadSteps(fx))
  {
  }

  /** When an upload fails, no staged file is deleted: both stay on disk. */
  lemma StagedFilesKeptOnUploadFailure(env: Env, names: Names, songId: string, fx: Effects)
    requires !(fx.videoSent && fx.audioSent)
    ensures UploadBothFiles(env, names, songId, fx).deleted == []
    ensures UploadBothFiles(env, names, songId, fx).response.status == 500
  {
  }

  /** The staged files are deleted only after both uploads went through. */
  lemma DeletionFollowsUpload(env: Env, names: Names, songId: string, fx: Effects)
    ensures UploadBothFiles(env, names, songId, fx).deleted != [] ==> fx.videoSent && fx.audioSent
    ensures UploadSteps(fx) ==> UploadBothFiles(env, names, songId, fx).deleted == [names.videoPath, names.audioPath]
  {
  }

  /** The /download handler for a request whose two downloads both finish
      without a stream error: the request gate, then the title lookup
      (`None` when it fails), then the names, then the single upload the
      barrier starts (Completion.EachFinishOnceUploadsOnce). */
  function HandleDownload(q: Query, validateUrl: string -> bool, title: Option<string>, now: nat,
                          env: Env, fx: Effects): Response
  {
    match Gate(q, validateUrl)
    case Rejected(status, error) => Response(status, Failed(error))
    case Accepted(_, songId) =>
      if title.None? then Response(500, Failed(ProcessingFailedMessage))
      else UploadBothFiles(env, DeriveNames(Sanitize(title.value), now), songId, fx).response
  }

  /** The three classes of answer: 400 exactly when the gate rejects, 200
      exactly when the title lookup and every upload step succeed, 500
      otherwise. */
  lemma HandleStatusClasses(q: Query, validateUrl: string -> bool, title: Option<string>, now: nat,
                            env: Env, fx: Effects)
    ensures var r := HandleDownload(q, validateUrl, title, now, env, fx);
      && (r.status == 400 <==> Gate(q, validateUrl).Rejected?)
      && (r.status == 200 <==> Gate(q, validateUrl).Accepted? && title.Some? && UploadSteps(fx))
      && (r.status == 400 || r.status == 200 || r.status == 500)
  {
  }

  /** A successful answer carries the `song_id` of the request and the two
      addresses of the names derived from the sanitised title and the time;
      the video address names that time. */
  lemma HandleSuccess(q: Query, validateUrl: string -> bool, t: string, now: nat, env: Env, fx: Effects)
    requires HandleDownload(q, validateUrl, Some(t), now, env, fx).status == 200
    ensures var r := HandleDownload(q, validateUrl, Some(t), now, env, fx);
      var title := Sanitize(t);
      && r.body.Uploaded?
      && r.body.songId == q.songId.value
      && r.body.awsUrl == VideoUrl(env, TitlePrefix(title) + "_" + Decimal(now) + ".mp4")
      && r.body.audioUrl == AudioUrl(env, TitlePrefix(title) + "_song.mp3")
  {
  }
}
