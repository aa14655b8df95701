/** How the /download handler turns a video title and the current time into
    the names of its staged files, its object-store keys and the content
    types it uploads with (api/index.js lines 59, 68-71 and 127-142). */
module Naming {
  import opened Options

  // ---------------------------------------------------------------------
  // Title sanitisation: `title.replace(/[^\w\s]/gi, "")`
  // ---------------------------------------------------------------------

  /** `\w` of a JavaScript regular expression without the `u` flag: ASCII
      letters, digits and the underscore (the `i` flag adds nothing here). */
  predicate IsWordChar(c: char) {
    ('A' <= c <= 'Z') || ('a' <= c <= 'z') || ('0' <= c <= '9') || c == '_'
  }

  /** `\s` of a JavaScript regular expression: the ECMAScript WhiteSpace and
      LineTerminator characters. */
  predicate IsWhitespace(c: char) {
    c == '\t' || c == '\n' || c == '\U{000B}' || c == '\U{000C}' || c == '\r'
    || c == ' ' || c == '\U{00A0}' || c == '\U{1680}'
    || ('\U{2000}' <= c <= '\U{200A}')
    || c == '\U{2028}' || c == '\U{2029}' || c == '\U{202F}' || c == '\U{205F}'
    || c == '\U{3000}' || c == '\U{FEFF}'
  }

  /** A character the sanitiser keeps: one that the class `[^\w\s]` does not match. */
  predicate IsKept(c: char) {
    IsWordChar(c) || IsWhitespace(c)
  }

  /** The title with every character that is neither a word character nor
      whitespace removed. */
  function Sanitize(title: string): (r: string)
    ensures |r| <= |title|
    ensures forall i :: 0 <= i < |r| ==> IsKept(r[i])
  {
    if title == [] then []
    else (if IsKept(title[0]) then [title[0]] else []) + Sanitize(title[1..])
  }

  /** `a` can be obtained from `b` by deleting characters. */
  predicate IsSubsequence(a: string, b: string)
    decreases |b|
  {
    if a == [] then true
    else if b == [] then false
    else if a[0] == b[0] then IsSubsequence(a[1..], b[1..])
    else IsSubsequence(a, b[1..])
  }

  /** The sanitised title is a subsequence of the title: what is kept keeps its order. */
  lemma {:induction false} SanitizeIsSubsequence(title: string)
    ensures IsSubsequence(Sanitize(title), title)
  {
    if title != [] {
      SanitizeIsSubsequence(title[1..]);
      var rest := Sanitize(title[1..]);
      if IsKept(title[0]) {
        assert Sanitize(title) == [title[0]] + rest;
        assert Sanitize(title)[1..] == rest;
      } else {
        assert Sanitize(title) == rest;
        if rest != [] {
          assert IsKept(rest[0]);
          assert rest[0] != title[0];
        }
      }
    }
  }

  /** The sanitised title holds every kept character of the title, as often as
      the title does, and no other character. Together with
      SanitizeIsSubsequence this pins the result down exactly: it is the
      subsequence of the title made of all of its kept characters. */
  lemma {:induction false} SanitizeCounts(title: string, c: char)
    ensures multiset(Sanitize(title))[c] == if IsKept(c) then multiset(title)[c] else 0
  {
    if title != [] {
      SanitizeCounts(title[1..], c);
      assert title == [title[0]] + title[1..];
      assert multiset(title) == multiset([title[0]]) + multiset(title[1..]);
      var head := if IsKept(title[0]) then [title[0]] else [];
      assert Sanitize(title) == head + Sanitize(title[1..]);
      assert multiset(Sanitize(title)) == multiset(head) + multiset(Sanitize(title[1..]));
    }
  }

  /** A string is left unchanged by sanitisation exactly when every character
      of it is kept. */
  lemma {:induction false} SanitizeFixedPoint(s: string)
    ensures Sanitize(s) == s <==> forall i :: 0 <= i < |s| ==> IsKept(s[i])
  {
    if forall i :: 0 <= i < |s| ==> IsKept(s[i]) {
      if s != [] {
        assert forall i :: 0 <= i < |s[1..]| ==> IsKept(s[1..][i]) by {
          forall i | 0 <= i < |s[1..]| ensures IsKept(s[1..][i]) {
            assert s[1..][i] == s[i + 1];
          }
        }
        SanitizeFixedPoint(s[1..]);
        assert IsKept(s[0]);
        assert s == [s[0]] + s[1..];
      }
    }
  }

  /** Sanitising an already sanitised title returns it unchanged. */
  lemma SanitizeIdempotent(title: string)
    ensures Sanitize(Sanitize(title)) == Sanitize(title)
  {
    SanitizeFixedPoint(Sanitize(title));
  }

  /** Every kept character is a single UTF-16 code unit, so counting
      characters of a sanitised title agrees with JavaScript's `slice`,
      which counts code units. */
  lemma KeptCharsAreOneCodeUnit(c: char)
    requires IsKept(c)
    ensures (c as int) < 0x1_0000
  {
  }

  // ---------------------------------------------------------------------
  // Truncation and the derived names
  // ---------------------------------------------------------------------

  /** The length to which titles are cut before they become names. */
  const TitleLimit: nat := 25

  /** `title.slice(0, 25)`. */
  function TitlePrefix(title: string): (r: string)
    ensures r <= title
    ensures |r| == if |title| < TitleLimit then |title| else TitleLimit
  {
    if |title| < TitleLimit then title else title[..TitleLimit]
  }

  /** The character of decimal digit `d`. */
  function DigitChar(d: nat): (c: char)
    requires d < 10
    ensures '0' <= c <= '9'
    ensures (c as int) - ('0' as int) == d
  {
    (('0' as int) + d) as char
  }

  predicate IsDigit(c: char) {
    '0' <= c <= '9'
  }

  predicate AllDigits(s: string) {
    forall i :: 0 <= i < |s| ==> IsDigit(s[i])
  }

  /** `String(n)` for a natural number: its decimal digits, with no leading zero. */
  function Decimal(n: nat): (s: string)
    ensures |s| >= 1
    ensures AllDigits(s)
    ensures s[0] == '0' ==> n == 0
    decreases n
  {
    if n < 10 then [DigitChar(n)] else Decimal(n / 10) + [DigitChar(n % 10)]
  }

  /** The number a string of decimal digits denotes (the reference reading
      of Decimal). */
  function DecimalValue(s: string): nat
    requires AllDigits(s)
  {
    if s == [] then 0
    else DecimalValue(s[..|s| - 1]) * 10 + ((s[|s| - 1] as int) - ('0' as int))
  }

  /** Reading the decimal text of `n` back gives `n`. */
  lemma {:induction false} DecimalRoundTrip(n: nat)
    ensures DecimalValue(Decimal(n)) == n
    decreases n
  {
    if n >= 10 {
      DecimalRoundTrip(n / 10);
      var s := Decimal(n);
      assert s[..|s| - 1] == Decimal(n / 10);
    }
  }

  /** Different times give different decimal texts. */
  lemma DecimalInjective(m: nat, n: nat)
    requires Decimal(m) == Decimal(n)
    ensures m == n
  {
    DecimalRoundTrip(m);
    DecimalRoundTrip(n);
  }

  /** The four names derived from one sanitised title and one reading of
      `Date.now()`: the two local staging files and the two upload names. */
  datatype Names = Names(videoPath: string, audioPath: string, fileName: string, songFileName: string)

  const VideoStagingSuffix := "_video.mp4"
  const AudioStagingSuffix := "_audio.mp4"
  const SongSuffix := "_song.mp3"

  /** The file name part of the video upload: `<prefix>_<now>.mp4`. */
  function VideoFileName(title: string, now: nat): string {
    TitlePrefix(title) + "_" + Decimal(now) + ".mp4"
  }

  /** The names of api/index.js lines 68-71. The two staging paths are the
      names under the previews directory; the directory itself is not
      modelled. */
  function DeriveNames(title: string, now: nat): Names {
    var p := TitlePrefix(title);
    Names(p + VideoStagingSuffix, p + AudioStagingSuffix, VideoFileName(title, now), p + SongSuffix)
  }

  /** Every derived name starts with the title cut to at most 25 characters,
      followed by the fixed suffix of its kind. */
  lemma NameShapes(title: string, now: nat)
    ensures var n := DeriveNames(title, now); var p := title[..if |title| < 25 then |title| else 25];
      && n.videoPath[..|p|] == p && n.videoPath[|p|..] == "_video.mp4"
      && n.audioPath[..|p|] == p && n.audioPath[|p|..] == "_audio.mp4"
      && n.fileName[..|p|] == p && n.fileName[|p|..] == "_" + Decimal(now) + ".mp4"
      && n.songFileName[..|p|] == p && n.songFileName[|p|..] == "_song.mp3"
  {
  }

  /** The video and audio staging files of one request never coincide, and
      neither do the two upload names. */
  lemma NamesOfOneRequestDiffer(title: string, now: nat)
    ensures DeriveNames(title, now).videoPath != DeriveNames(title, now).audioPath
    ensures DeriveNames(title, now).fileName != DeriveNames(title, now).songFileName
  {
    var n := DeriveNames(title, now);
    var p := TitlePrefix(title);
    assert n.videoPath[|p| + 1] == 'v' && n.audioPath[|p| + 1] == 'a';
    var f := n.fileName;
    assert f[|f| - 1] == '4';
    assert n.songFileName[|n.songFileName| - 1] == '3';
  }

  /** The staging paths and the audio upload name do not depend on the time:
      two requests whose titles agree on their first 25 characters share
      them and overwrite each other. */
  lemma TimeFreeNamesCollide(t1: string, t2: string, now1: nat, now2: nat)
    requires TitlePrefix(t1) == TitlePrefix(t2)
    ensures DeriveNames(t1, now1).videoPath == DeriveNames(t2, now2).videoPath
    ensures DeriveNames(t1, now1).audioPath == DeriveNames(t2, now2).audioPath
    ensures DeriveNames(t1, now1).songFileName == DeriveNames(t2, now2).songFileName
  {
  }

  /** The number of decimal digits `s` ends with. */
  function TrailingDigits(s: string): (k: nat)
    ensures k <= |s|
  {
    if s == [] || !IsDigit(s[|s| - 1]) then 0 else 1 + TrailingDigits(s[..|s| - 1])
  }

  lemma {:induction false} TrailingDigitsAfterSeparator(p: string, d: string)
    requires AllDigits(d)
    ensures TrailingDigits(p + "_" + d) == |d|
  {
    var s := p + "_" + d;
    if d != [] {
      var d' := d[..|d| - 1];
      assert s[..|s| - 1] == p + "_" + d';
      TrailingDigitsAfterSeparator(p, d');
    }
  }

  /** The video upload name determines both the title prefix and the time
      it was made from, whatever the titles: the separator before the digits
      is the last underscore, because the digits contain none. */
  lemma {:induction false} VideoFileNameInjective(t1: string, t2: string, now1: nat, now2: nat)
    requires VideoFileName(t1, now1) == VideoFileName(t2, now2)
    ensures TitlePrefix(t1) == TitlePrefix(t2)
    ensures now1 == now2
  {
    var p1, p2 := TitlePrefix(t1), TitlePrefix(t2);
    var d1, d2 := Decimal(now1), Decimal(now2);
    var u1, u2 := p1 + "_" + d1, p2 + "_" + d2;
    var s := VideoFileName(t1, now1);
    assert s == u1 + ".mp4" && s == u2 + ".mp4";
    assert u1 == s[..|s| - 4] == u2;
    var u := u1;
    TrailingDigitsAfterSeparator(p1, d1);
    TrailingDigitsAfterSeparator(p2, d2);
    assert d1 == u[|u| - |d1|..] == d2;
    assert p1 == u[..|p1|] == p2;
    DecimalInjective(now1, now2);
  }

  // ---------------------------------------------------------------------
  // Object-store keys and content types
  // ---------------------------------------------------------------------

  /** The folder all uploads go under. */
  const PreviewFolder := "video-previews/"
  const VideoContentType := "video/mp4"
  const AudioContentType := "audio/mp4"

  function VideoKey(fileName: string): string {
    PreviewFolder + fileName
  }

  function AudioKey(songFileName: string): string {
    PreviewFolder + "audio/" + songFileName
  }

  /** No upload name (`fileName`, `songFileName`) derived from a sanitised
      title contains '/'. */
  lemma {:induction false} DerivedNamesHaveNoSlash(raw: string, now: nat)
    ensures var n := DeriveNames(Sanitize(raw), now);
      && (forall i :: 0 <= i < |n.fileName| ==> n.fileName[i] != '/')
      && (forall i :: 0 <= i < |n.songFileName| ==> n.songFileName[i] != '/')
  {
  }

  /** No video key is ever an audio key, whatever the titles and times of the
      two requests: the video file name would have to start with "audio/". */
  lemma KeysDisjoint(raw1: string, now1: nat, raw2: string, now2: nat)
    ensures VideoKey(DeriveNames(Sanitize(raw1), now1).fileName)
         != AudioKey(DeriveNames(Sanitize(raw2), now2).songFileName)
  {
    var f := DeriveNames(Sanitize(raw1), now1).fileName;
    var g := DeriveNames(Sanitize(raw2), now2).songFileName;
    DerivedNamesHaveNoSlash(raw1, now1);
    var k := |PreviewFolder|;
    assert f[5] != '/';
    assert VideoKey(f)[k + 5] == f[5];
    assert AudioKey(g)[k + 5] == '/';
  }

  /** One upload request as it is handed to the object store: the bucket is
      `AWS_BUCKET_NAME`, possibly unset; the body (the staged file's bytes)
      is not modelled. */
  datatype PutObject = PutObject(bucket: Option<string>, key: string, contentType: string, acl: string)

  const PublicRead := "public-read"

  /** The video upload of api/index.js:127-133. */
  function VideoUpload(bucket: Option<string>, fileName: string): (u: PutObject)
    ensures u.key == "video-previews/" + fileName
    ensures u.contentType == "video/mp4" && u.acl == "public-read" && u.bucket == bucket
  {
    PutObject(bucket, VideoKey(fileName), VideoContentType, PublicRead)
  }

  /** The audio upload of api/index.js:136-142. The song file is named
      `.mp3` but is sent as `audio/mp4`. */
  function AudioUpload(bucket: Option<string>, songFileName: string): (u: PutObject)
    ensures u.key == "video-previews/audio/" + songFileName
    ensures u.contentType == "audio/mp4" && u.acl == "public-read" && u.bucket == bucket
  {
    PutObject(bucket, AudioKey(songFileName), AudioContentType, PublicRead)
  }
}
