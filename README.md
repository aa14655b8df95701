# yt-server `/download`: a Dafny model

The `/download` handler of `api/index.js` takes a YouTube `url` and a
`song_id`. It downloads the video-only and audio-only streams of the video
into two staged files. Once both files have finished writing, it uploads them
to an S3 bucket, derives their public addresses (through CloudFront when
`CLOUDFRONT_URL` is set), deletes the staged files, stores a metadata document
in Appwrite and answers with both addresses.

This project models the logic of that handler. Every network or file-system
call is an input or a success flag:

- `Naming`: title sanitisation (`Sanitize`, api/index.js:59), the cut to
  25 characters (`TitlePrefix`), the decimal text of `Date.now()`
  (`Decimal`), the four derived names (`DeriveNames`, api/index.js:68-71),
  the object-store keys (`VideoKey`, api/index.js:129; `AudioKey`,
  api/index.js:138), the uploads and their content types (`VideoUpload`,
  `AudioUpload`, api/index.js:127-142).
- `Addresses`: the CDN or bucket address of each upload (`VideoUrl`,
  `AudioUrl`, api/index.js:154-160), and the region the S3 client is built
  with (`ClientRegion`, api/index.js:21-22).
- `RequestGate`: the two `400` checks, URL first (`Gate`, api/index.js:45-51).
- `Completion`: the two-flag barrier (api/index.js:96-117). The class
  `Barrier` has the source's two flags and a counter of upload starts. Its
  methods `CheckCompletion`, `OnVideoFinish` and `OnAudioFinish` are the
  check and the two "finish" handlers. It is specified by the replay
  functions `Step`, `FlagsAfter` and `UploadsAfter` over the history of
  finish events (api/index.js:107-117).
- `Upload`: `uploadBothFiles` as a function of the outcome of each foreign
  call (`UploadBothFiles`, api/index.js:120-201), and the handler's response
  for a request whose two downloads finish (`HandleDownload`,
  api/index.js:41-225).
- `Options`: absent values and JavaScript truthiness.

Environment variables and query parameters are `Option<string>`. A value is
truthy only when it is present and non-empty. A template literal prints an
unset value as `undefined`. The URL validator of the media library is a
predicate parameter. `Date.now()` is a `nat` parameter.

The code behaves as follows, and the model keeps that behaviour:

- Keys are `video-previews/<prefix>_<now>.mp4` and
  `video-previews/audio/<prefix>_song.mp3`.
- The staged file names and the audio key do not contain the time.
  `Naming.TimeFreeNamesCollide` shows that two requests whose titles share
  their first 25 characters use the same staged files and the same audio key.
- Staged files are not deleted when an upload fails
  (`Upload.StagedFilesKeptOnUploadFailure`).
- Nothing limits how long a request may take.
- Without a CDN, the audio address does not point at the audio key
  (`Addresses.BucketAudioUrlMissesKey`).
- The bucket addresses name the region the client uses only when
  `AWS_DEFAULT_REGION` is set and non-empty. When it is unset they name
  `undefined`, and when it is empty they name no region, while the client
  uses `us-east-1` (`Addresses.AddressRegionMatchesClient`).
- `checkCompletion` has no guard against a second call, so in the modelled
  histories every finish event after both flags are set starts the upload
  again (`Completion.EveryLaterFinishUploads`). Such histories allow repeated
  events that Node never delivers, because a write stream emits `finish` at
  most once. The case that happens at runtime is the one of
  `Completion.EachFinishOnceUploadsOnce`: each event once, one upload.

## Model

| member | source | states |
|---|---|---|
| `Naming.Sanitize` | api/index.js:59 | the result is no longer than the title and holds only word characters (`[A-Za-z0-9_]`) or JavaScript whitespace |
| `Naming.SanitizeIsSubsequence` | api/index.js:59 | the sanitised title is a subsequence of the title, so the kept characters stay in order |
| `Naming.SanitizeCounts` | api/index.js:59 | each kept character occurs in the result exactly as often as in the title, and no other character occurs; with the subsequence lemma this means the result is exactly the kept characters of the title, in order |
| `Naming.SanitizeFixedPoint` | api/index.js:59 | sanitising leaves a string unchanged exactly when all its characters are kept (both directions) |
| `Naming.SanitizeIdempotent` | api/index.js:59 | sanitising a sanitised title returns it unchanged |
| `Naming.KeptCharsAreOneCodeUnit` | api/index.js:59 | every kept character is one UTF-16 code unit, so `slice` on the sanitised title counts characters |
| `Naming.TitlePrefix` | api/index.js:68 | `title.slice(0, 25)` is a prefix of the title of length min(25, length of the title) |
| `Naming.Decimal` | api/index.js:70 | the text of `Date.now()` is a non-empty string of digits with no leading zero |
| `Naming.DecimalRoundTrip` | api/index.js:70 | reading the decimal text of a time back gives that time |
| `Naming.DecimalInjective` | api/index.js:70 | different times have different decimal texts |
| `Naming.NameShapes` | api/index.js:68-71 | each of the four names is the title cut to min(25, length of the title) characters followed by `_video.mp4`, `_audio.mp4`, `_<now>.mp4` or `_song.mp3` |
| `Naming.NamesOfOneRequestDiffer` | api/index.js:68-71 | the video and audio staging paths of one request differ, and so do its two upload names |
| `Naming.TimeFreeNamesCollide` | api/index.js:68-71 | the staging paths and the song file name do not depend on the time, so titles with the same 25-character prefix share them |
| `Naming.VideoFileNameInjective` | api/index.js:70 | the video upload name determines both the title prefix and the time, for any titles |
| `Naming.DerivedNamesHaveNoSlash` | api/index.js:59-71 | upload names derived from a sanitised title contain no `/` |
| `Naming.KeysDisjoint` | api/index.js:127-142 | no video key of any request equals the audio key of any request |
| `Naming.VideoUpload` | api/index.js:127-133 | the video upload goes to `video-previews/<fileName>` in the configured bucket, as `video/mp4`, publicly readable |
| `Naming.AudioUpload` | api/index.js:136-142 | the audio upload goes to `video-previews/audio/<songFileName>`, as `audio/mp4`, publicly readable |
| `Addresses.AddressBranches` | api/index.js:154-160 | with a truthy CDN base, each address is the base, `/` and the object key without its `video-previews/` folder; otherwise the video address is the bucket base followed by the video key, and the audio address is the bucket base followed by `audio/<songFileName>` |
| `Addresses.BucketAudioUrlMissesKey` | api/index.js:138-160 | without a CDN the video address is the bucket address of its key, but the audio address is not the bucket address of its key |
| `Addresses.EmptyCdnFallsBack` | api/index.js:154-160 | an empty `CLOUDFRONT_URL` counts as unset, so both the video and the audio address use the bucket base |
| `Addresses.CdnIgnoresBucket` | api/index.js:154-160 | with a CDN base, the addresses depend only on the base and the names |
| `Addresses.ClientRegion` | api/index.js:21-22 | the client region is `AWS_DEFAULT_REGION` when it is truthy and `us-east-1` otherwise |
| `Addresses.AddressRegionMatchesClient` | api/index.js:154-160 | the bucket address names the region the client uploads to exactly when `AWS_DEFAULT_REGION` is set and non-empty: an unset region prints as `undefined` and an empty one as nothing, while the client falls back to `us-east-1` |
| `RequestGate.Gate` | api/index.js:45-51 | a missing, empty or invalid URL gives the 400 URL error, and nothing else does; a good URL with a missing or empty `song_id` gives the 400 `song_id` error, and nothing else does; a request is accepted exactly when both checks pass, and it then carries its URL and `song_id` |
| `RequestGate.UrlCheckFirst` | api/index.js:45-51 | with a bad URL the outcome is the URL error whatever the `song_id` |
| `RequestGate.ValidatorNotConsultedWithoutUrl` | api/index.js:45 | with a missing or empty URL the validator is not consulted: any two validators give the same rejection |
| `Completion.FlagsRecordFinishes` | api/index.js:96-117 | after any history of finish events, each flag is set exactly when its own event has occurred |
| `Completion.UploadNeedsBoth` | api/index.js:100-117 | the upload has been started at least once exactly when both finish events have occurred |
| `Completion.EveryLaterFinishUploads` | api/index.js:100-117 | once both events have occurred, every further finish event starts the upload once more |
| `Completion.EachFinishOnceUploadsOnce` | api/index.js:96-117 | when each finish event fires once, in either order, the upload is started exactly once |
| `Completion.Barrier.constructor` | api/index.js:96-97 | both flags start unset and no upload has started |
| `Completion.Barrier.CheckCompletion` | api/index.js:100-105 | it starts the upload exactly when both flags are set, and changes nothing else |
| `Completion.Barrier.OnVideoFinish` | api/index.js:107-111 | it sets the video flag only, and starts the upload exactly when the audio flag was already set; the state stays equal to the replay of the history |
| `Completion.Barrier.OnAudioFinish` | api/index.js:113-117 | it sets the audio flag only, and starts the upload exactly when the video flag was already set; the state stays equal to the replay of the history |
| `Completion.FinishBoth` | api/index.js:96-117 | a client of the class: with each event delivered once, in either order, the first event starts nothing, the second starts the upload, and exactly one upload is started |
| `Upload.UploadBothFiles` | api/index.js:120-201 | the answer is 200 exactly when both reads, both uploads and both deletions succeed; it then carries the video address, the audio address and the `songId`, and the metadata document carries the same addresses; otherwise the answer is the 500 upload error; both uploads are sent exactly when both reads succeeded; the staged files deleted are both, when every step before the metadata write succeeds, only the video file, when the audio deletion fails, and none otherwise |
| `Upload.MetadataFailureSwallowed` | api/index.js:170-194 | a failed metadata write gives the same response (same addresses and `songId`), uploads, deletions and attempted document as a successful one; only the run's record of the write differs |
| `Upload.StagedFilesKeptOnUploadFailure` | api/index.js:148-167 | when an upload fails, no staged file is deleted and the answer is 500 |
| `Upload.DeletionFollowsUpload` | api/index.js:148-167 | staged files are deleted only after both uploads succeed, and a fully successful run deletes both, video first |
| `Upload.HandleStatusClasses` | api/index.js:41-225 | the handler answers 400 exactly when the gate rejects; it answers 200 exactly when the gate accepts, the title lookup succeeds and every upload step succeeds; it answers 500 otherwise |
| `Upload.HandleSuccess` | api/index.js:187-194 | a success answer carries the request's `song_id` and the addresses of `<prefix>_<now>.mp4` and `<prefix>_song.mp3`, where the prefix is the sanitised title cut to 25 characters |

## Left out

- Stream resolution by the media library (`getInfo`, the two stream requests
  and the format filter for 720p MP4, api/index.js:57, 74-85) is a network
  call. The title is an input (`None` when the lookup fails), and
  `validateURL` is a predicate parameter.
- File-system work (creating the previews directory, the write streams and
  pipes, `readFileSync`, `unlinkSync`) is I/O. Each read and deletion is a
  success flag. Staging paths are file names only: the `path.join` with the
  previews directory is not modelled.
- The S3 `send` calls and Appwrite `createDocument` are network clients. Each
  is a success flag. File contents, the `ID.unique()` document id and the
  database and collection ids are not modelled.
- Express routing, CORS, the `/` route, `listen`, console logging and the
  dotenv and client configuration are framework code. The three environment
  variables the addresses read are explicit parameters.
- The write-stream `error` handlers (api/index.js:205-217) are left out.
  Their interleaving with finish events is asynchronous and can lead to a
  second response. `HandleDownload` covers only requests whose two downloads
  both finish.
- The asynchronous delivery of finish events is left out. The barrier is
  driven by one sequential history of events.
- The `details` member of error responses (raw exception objects) is left
  out.
- Query parameters given as arrays by Express's query parser are left out.
  Each parameter is either a string or absent.
- `Upload.UploadBothFiles` models the two uploads of `Promise.all` only as
  "both succeeded" or not. Which one failed first is not modelled, because the
  code does not change its answer for it.
