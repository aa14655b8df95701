/** The public addresses the handler reports for the two uploads
    (api/index.js:154-160), and the region the object-store client is
    configured with (api/index.js:21-27). The environment is passed in. */
module Addresses {
  import opened Options
  import opened Naming

  /** The environment values the address derivation reads; each one is a
      string or unset. */
  datatype Env = Env(cloudfrontUrl: Option<string>, bucketName: Option<string>, defaultRegion: Option<string>)

  /** A CDN base is used exactly when `CLOUDFRONT_URL` is truthy: set and non-empty. */
  predicate UsesCdn(env: Env) {
    Truthy(env.cloudfrontUrl)
  }

  /** `https://<bucket>.s3.<region>.amazonaws.com/`, with unset values
      printed as `undefined`. */
  function BucketBase(env: Env): string {
    "https://" + TemplateText(env.bucketName) + ".s3." + TemplateText(env.defaultRegion) + ".amazonaws.com/"
  }

  /** The address reported for the video upload named `fileName`. */
  function VideoUrl(env: Env, fileName: string): string {
    if UsesCdn(env) then env.cloudfrontUrl.value + "/" + fileName
    else BucketBase(env) + "video-previews/" + fileName
  }

  /** The address reported for the audio upload named `songFileName`. */
  function AudioUrl(env: Env, songFileName: string): string {
    if UsesCdn(env) then env.cloudfrontUrl.value + "/audio/" + songFileName
    else BucketBase(env) + "audio/" + songFileName
  }

  /** Both branches of both addresses. With a CDN base, each address is the
      base followed by its object key without the leading `video-previews/`
      folder; without one, the video address is the bucket base followed by
      the video key and the audio address is the bucket base followed by
      `audio/` and the song file name. */
  lemma AddressBranches(env: Env, fileName: string, songFileName: string)
    ensures UsesCdn(env) ==>
      && VideoUrl(env, fileName) == env.cloudfrontUrl.value + "/" + VideoKey(fileName)[|PreviewFolder|..]
      && AudioUrl(env, songFileName) == env.cloudfrontUrl.value + "/" + AudioKey(songFileName)[|PreviewFolder|..]
    ensures !UsesCdn(env) ==>
      && VideoUrl(env, fileName) == BucketBase(env) + VideoKey(fileName)
      && AudioUrl(env, songFileName) == BucketBase(env) + "audio/" + songFileName
  {
  }

  /** Without a CDN base the audio address is not the object-store address of
      the audio key: the key lies under `video-previews/audio/`, the address
      under `audio/`. The video address does match its key. */
  lemma BucketAudioUrlMissesKey(env: Env, fileName: string, songFileName: string)
    requires !UsesCdn(env)
    ensures VideoUrl(env, fileName) == BucketBase(env) + VideoKey(fileName)
    ensures AudioUrl(env, songFileName) != BucketBase(env) + AudioKey(songFileName)
  {
  }

  /** An empty `CLOUDFRONT_URL` counts as unset: the bucket addresses are used. */
  lemma EmptyCdnFallsBack(env: Env, fileName: string, songFileName: string)
    requires env.cloudfrontUrl == Some("")
    ensures VideoUrl(env, fileName) == BucketBase(env) + "video-previews/" + fileName
    ensures AudioUrl(env, songFileName) == BucketBase(env) + "audio/" + songFileName
  {
  }

  /** With a CDN base, the addresses depend on nothing but that base and the
      names: bucket and region are ignored. */
  lemma CdnIgnoresBucket(env1: Env, env2: Env, fileName: string, songFileName: string)
    requires UsesCdn(env1) && env1.cloudfrontUrl == env2.cloudfrontUrl
    ensures VideoUrl(env1, fileName) == VideoUrl(env2, fileName)
    ensures AudioUrl(env1, songFileName) == AudioUrl(env2, songFileName)
  {
  }

  /** The region the object-store client is built with:
      `AWS_DEFAULT_REGION || "us-east-1"`. */
  function ClientRegion(env: Env): (r: string)
    ensures Truthy(env.defaultRegion) ==> r == env.defaultRegion.value
    ensures !Truthy(env.defaultRegion) ==> r == "us-east-1"
  {
    if Truthy(env.defaultRegion) then env.defaultRegion.value else "us-east-1"
  }

  /** The bucket addresses name the region the client uploads to exactly
      when `AWS_DEFAULT_REGION` is truthy. When it is unset the addresses name
      the region `undefined`, and when it is empty they name no region at
      all, while in both cases the client uses `us-east-1`. */
  lemma AddressRegionMatchesClient(env: Env)
    ensures BucketBase(env) == "https://" + TemplateText(env.bucketName) + ".s3." + ClientRegion(env) + ".amazonaws.com/"
        <==> Truthy(env.defaultRegion)
  {
    var b := TemplateText(env.bucketName);
    var withClient := "https://" + b + ".s3." + ClientRegion(env) + ".amazonaws.com/";
    if env.defaultRegion.None? {
      var k := 8 + |b| + 4;
      assert BucketBase(env)[k + 1] == 'n' && withClient[k + 1] == 's';
    } else if env.defaultRegion == Some("") {
      assert |BucketBase(env)| < |withClient|;
    }
  }
}
