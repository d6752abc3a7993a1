/**
  Task-creation requests. Each of the four `create_*_task` operations builds
  a content list (the annotated prompt first, then the images in order),
  picks the wire model id and posts the payload; a missing or unreadable
  image, or a bad reference-image count, stops it before anything is sent.
  Reading a local image is an oracle (`Files`); so is the HTTP post.
*/
module Requests {
  import opened Wrappers
  import opened Text
  import opened PyJson
  import opened Config
  import opened Flags

  // ----- payload data -----

  /** The `role` tag of an image entry. */
  datatype Role = FirstFrame | LastFrame | ReferenceImage

  function RoleName(r: Role): string
  {
    match r
    case FirstFrame => "first_frame"
    case LastFrame => "last_frame"
    case ReferenceImage => "reference_image"
  }

  /** One element of the `content` list. */
  datatype Entry = TextEntry(text: string) | ImageEntry(url: string, role: Option<Role>)

  datatype Payload = Payload(model: string, content: seq<Entry>)

  /** What a builder decides before any network traffic: a payload to post, or an error dict. */
  datatype Request = Send(payload: Payload) | Reject(error: string)

  /**
    The local file system as seen by the client: `encode` reads a file and
    returns its base64 text or the text of the exception raised; `guessMime`
    is the type guessed from the file name, if any.
  */
  datatype Files = Files(encode: string -> Result<string>, guessMime: string -> Option<string>)

  // ----- images -----

  /** The MIME type written into a data URI: the guess when it is an image type, otherwise JPEG. */
  function MimeFor(guess: Option<string>): (mime: string)
    ensures StartsWith(mime, "image/")
    ensures guess.Some? && StartsWith(guess.value, "image/") ==> mime == guess.value
    ensures !(guess.Some? && StartsWith(guess.value, "image/")) ==> mime == "image/jpeg"
  {
    if guess.None? || guess.value == "" || !StartsWith(guess.value, "image/") then "image/jpeg"
    else guess.value
  }

  function DataUri(mime: string, payload: string): string
  {
    "data:" + mime + ";base64," + payload
  }

  /** The first position of `c` in `s`. */
  function IndexOf(s: string, c: char): (r: Option<nat>)
    ensures r.Some? ==> r.value < |s| && s[r.value] == c && c !in s[..r.value]
    ensures r.None? ==> c !in s
  {
    if s == [] then None
    else if s[0] == c then Some(0)
    else
      var rest := IndexOf(s[1..], c);
      if rest.None? then None
      else
        assert s[..rest.value + 1] == [s[0]] + s[1..][..rest.value];
        Some(rest.value + 1)
  }

  /** Reads a `data:<mime>;base64,<payload>` URI back into its two parts. */
  function ParseDataUri(u: string): Option<(string, string)>
  {
    if !StartsWith(u, "data:") then None
    else
      var rest := u[5..];
      var i := IndexOf(rest, ';');
      if i.None? then None
      else if StartsWith(rest[i.value..], ";base64,") then Some((rest[..i.value], rest[i.value + 8..]))
      else None
  }

  lemma IndexOfFirst(m: string, tail: string, c: char)
    requires c !in m && tail != [] && tail[0] == c
    ensures IndexOf(m + tail, c) == Some(|m|)
  {
    assert (m + tail)[|m|] == c;
    assert (m + tail)[..|m|] == m;
  }

  /** A data URI built by the client reads back as the MIME type and payload it was built from. */
  lemma DataUriRoundTrip(mime: string, payload: string)
    requires ';' !in mime
    ensures ParseDataUri(DataUri(mime, payload)) == Some((mime, payload))
  {
    var u := DataUri(mime, payload);
    assert u[..5] == "data:";
    var rest := u[5..];
    assert rest == mime + (";base64," + payload);
    IndexOfFirst(mime, ";base64," + payload, ';');
    assert rest[|mime|..] == ";base64," + payload;
    assert rest[|mime|..][..8] == ";base64,";
    assert rest[..|mime|] == mime;
    assert rest[|mime| + 8..] == payload;
  }

  /** The error reported when a local image cannot be read. */
  function EncodeError(noun: string, detail: string): string
  {
    "Failed to encode " + noun + ": " + detail
  }

  /** The error reported when neither a URL nor a path is given for an image slot. */
  function MissingSlotError(arg: string): string
  {
    "Either " + arg + "_url or " + arg + "_path must be provided"
  }

  /** A local image as a data URI; an exception while reading it becomes the mode's error message. */
  function EncodeLocal(files: Files, path: string, noun: string): Result<string>
  {
    match files.encode(path)
    case Failure(e) => Failure(EncodeError(noun, e))
    case Success(b64) => Success(DataUri(MimeFor(files.guessMime(path)), b64))
  }

  /**
    A local file that encodes becomes a data URI; when its type guess has no
    `;`, it reads back as its JPEG-defaulted type and its bytes. A file that
    does not encode gives the read error.
  */
  lemma LocalImageIsDataUri(files: Files, path: string, noun: string)
    ensures files.encode(path).Success? ==> EncodeLocal(files, path, noun).Success?
    ensures files.encode(path).Success? && (files.guessMime(path).Some? ==> ';' !in files.guessMime(path).value) ==>
      EncodeLocal(files, path, noun).Success?
      && ParseDataUri(EncodeLocal(files, path, noun).value) == Some((MimeFor(files.guessMime(path)), files.encode(path).value))
    ensures files.encode(path).Failure? ==>
      EncodeLocal(files, path, noun) == Failure(EncodeError(noun, files.encode(path).error))
  {
    var mime := MimeFor(files.guessMime(path));
    if mime == "image/jpeg" {
      assert ';' !in mime by {
        forall i | 0 <= i < |mime| ensures mime[i] != ';' {
        }
      }
    }
    if files.encode(path).Success? && (files.guessMime(path).Some? ==> ';' !in files.guessMime(path).value) {
      DataUriRoundTrip(mime, files.encode(path).value);
    }
  }

  /**
    One image slot of the image-to-video and first-last-frame modes: the URL
    when given (the path is then ignored), otherwise the encoded local file,
    otherwise the "Either ... must be provided" error.
  */
  function ResolveSlot(files: Files, url: Option<string>, path: Option<string>, noun: string, arg: string): (r: Result<string>)
    ensures Present(url) ==> r == Success(url.value)
    ensures !Present(url) && !Present(path) ==> r == Failure(MissingSlotError(arg))
    ensures !Present(url) && Present(path) ==> r == EncodeLocal(files, path.value, noun)
  {
    if Present(url) then Success(url.value)
    else if Present(path) then EncodeLocal(files, path.value, noun)
    else Failure(MissingSlotError(arg))
  }

  /** A reference image: anything starting with `http` is sent as a URL, the rest is read as a file. */
  function ReferenceUrl(files: Files, ref: string): Result<string>
  {
    if StartsWith(ref, "http") then Success(ref) else EncodeLocal(files, ref, "reference image")
  }

  /** The reference images that are not None or empty, in order. */
  function Kept(refs: seq<Option<string>>): (kept: seq<string>)
    ensures |kept| <= |refs|
  {
    if refs == [] then []
    else if Present(refs[0]) then [refs[0].value] + Kept(refs[1..])
    else Kept(refs[1..])
  }

  function ReferenceEntry(url: string): Entry
  {
    ImageEntry(url, Some(ReferenceImage))
  }

  /** The image entries of the reference images, or the error of the first that cannot be read. */
  function ReferenceEntries(files: Files, refs: seq<Option<string>>): Result<seq<Entry>>
  {
    if refs == [] then Success([])
    else if !Present(refs[0]) then ReferenceEntries(files, refs[1..])
    else
      match ReferenceUrl(files, refs[0].value)
      case Failure(e) => Failure(e)
      case Success(u) =>
        var rest := ReferenceEntries(files, refs[1..]);
        if rest.Failure? then rest else Success([ReferenceEntry(u)] + rest.value)
  }

  /**
    The reference images are sent in the order given, blanks skipped, one
    entry per kept image; the request fails exactly when some kept image
    cannot be read, and then with the error of the first such image.
  */
  lemma {:induction false} ReferenceEntriesInOrder(files: Files, refs: seq<Option<string>>)
    ensures var r := ReferenceEntries(files, refs); var k := Kept(refs);
      (r.Success? <==> forall i :: 0 <= i < |k| ==> ReferenceUrl(files, k[i]).Success?)
      && (r.Success? ==>
            |r.value| == |k|
            && forall i :: 0 <= i < |k| ==> r.value[i] == ReferenceEntry(ReferenceUrl(files, k[i]).value))
      && (r.Failure? ==>
            exists i :: 0 <= i < |k| && ReferenceUrl(files, k[i]).Failure? && r.error == ReferenceUrl(files, k[i]).error
              && (forall j :: 0 <= j < i ==> ReferenceUrl(files, k[j]).Success?))
  {
    if refs == [] {
    } else {
      ReferenceEntriesInOrder(files, refs[1..]);
      var k := Kept(refs);
      var kt := Kept(refs[1..]);
      if Present(refs[0]) {
        assert k == [refs[0].value] + kt;
        var r := ReferenceEntries(files, refs);
        var rt := ReferenceEntries(files, refs[1..]);
        if ReferenceUrl(files, refs[0].value).Failure? {
          assert r.Failure? && r.error == ReferenceUrl(files, k[0]).error;
        } else if rt.Failure? {
          var i :| 0 <= i < |kt| && ReferenceUrl(files, kt[i]).Failure? && rt.error == ReferenceUrl(files, kt[i]).error
            && forall j :: 0 <= j < i ==> ReferenceUrl(files, kt[j]).Success?;
          assert k[i + 1] == kt[i];
          assert forall j :: 0 <= j < i + 1 ==> ReferenceUrl(files, k[j]).Success? by {
            forall j | 0 <= j < i + 1 ensures ReferenceUrl(files, k[j]).Success? {
              if j > 0 { assert k[j] == kt[j - 1]; }
            }
          }
        } else {
          forall i | 0 <= i < |k| ensures ReferenceUrl(files, k[i]).Success?
            && r.value[i] == ReferenceEntry(ReferenceUrl(files, k[i]).value) {
            if i > 0 { assert k[i] == kt[i - 1]; }
          }
        }
      } else {
        assert k == kt;
      }
    }
  }

  // ----- the four requests (specification) -----

  function TextToVideoRequest(ids: ModelIds, prompt: string, model: string, resolution: string, duration: int,
                              ratio: string, seed: Option<int>, watermark: bool): Request
  {
    Send(Payload(ResolveModel(ids, TextToVideo, model),
      [TextEntry(TextToVideoPrompt(prompt, resolution, duration, ratio, seed, watermark))]))
  }

  function ImageToVideoRequest(ids: ModelIds, files: Files, imageUrl: Option<string>, imagePath: Option<string>,
                               prompt: string, model: string, resolution: string, duration: int,
                               seed: Option<int>, watermark: bool): Request
  {
    match ResolveSlot(files, imageUrl, imagePath, "image", "image")
    case Failure(e) => Reject(e)
    case Success(u) =>
      Send(Payload(ResolveModel(ids, ImageToVideo, model),
        [TextEntry(ImageToVideoPrompt(prompt, resolution, duration, seed, watermark)), ImageEntry(u, None)]))
  }

  function FirstLastFrameRequest(ids: ModelIds, files: Files, firstUrl: Option<string>, firstPath: Option<string>,
                                 lastUrl: Option<string>, lastPath: Option<string>, prompt: string, model: string,
                                 resolution: string, duration: int, cf: bool, seed: Option<int>, watermark: bool): Request
  {
    match ResolveSlot(files, firstUrl, firstPath, "first frame", "first_frame")
    case Failure(e) => Reject(e)
    case Success(first) =>
      match ResolveSlot(files, lastUrl, lastPath, "last frame", "last_frame")
      case Failure(e) => Reject(e)
      case Success(last) =>
        Send(Payload(ResolveModel(ids, FirstLastFrame, model),
          [TextEntry(FirstLastFramePrompt(prompt, resolution, duration, cf, seed, watermark)),
           ImageEntry(first, Some(FirstFrame)), ImageEntry(last, Some(LastFrame))]))
  }

  const NoReferenceError := "At least one reference image is required"
  const TooManyReferencesError := "Maximum 4 reference images are supported"

  /** `refs` is the list as passed; a None list behaves as the empty one. */
  function ImageRefsRequest(ids: ModelIds, files: Files, refs: seq<Option<string>>, prompt: string, model: string,
                            resolution: string, duration: int, ratio: string, seed: Option<int>, watermark: bool): Request
  {
    if |refs| == 0 then Reject(NoReferenceError)
    else if |refs| > 4 then Reject(TooManyReferencesError)
    else
      match ReferenceEntries(files, refs)
      case Failure(e) => Reject(e)
      case Success(images) =>
        Send(Payload(ResolveModel(ids, ImageRefs, model),
          [TextEntry(ImageRefsPrompt(prompt, resolution, duration, ratio, seed, watermark))] + images))
  }

  // ----- properties of the requests -----

  /** The image-to-video request never reads the file system when a URL is given. */
  lemma ImageUrlWins(ids: ModelIds, files1: Files, files2: Files, imageUrl: Option<string>, imagePath: Option<string>,
                     prompt: string, model: string, resolution: string, duration: int, seed: Option<int>, watermark: bool)
    requires Present(imageUrl)
    ensures ImageToVideoRequest(ids, files1, imageUrl, imagePath, prompt, model, resolution, duration, seed, watermark)
         == ImageToVideoRequest(ids, files2, imageUrl, imagePath, prompt, model, resolution, duration, seed, watermark)
    ensures ImageToVideoRequest(ids, files1, imageUrl, imagePath, prompt, model, resolution, duration, seed, watermark).Send?
  {
  }

  /** With neither an image URL nor a path, image-to-video is refused with the "Either ..." error. */
  lemma MissingImageRejected(ids: ModelIds, files: Files, imageUrl: Option<string>, imagePath: Option<string>,
                             prompt: string, model: string, resolution: string, duration: int, seed: Option<int>, watermark: bool)
    requires !Present(imageUrl) && !Present(imagePath)
    ensures ImageToVideoRequest(ids, files, imageUrl, imagePath, prompt, model, resolution, duration, seed, watermark)
      == Reject(MissingSlotError("image"))
  {
  }

  /**
    The first frame is checked before the last: when both are missing, the
    error names the first frame, and a failing first frame hides any problem
    with the last one.
  */
  lemma FirstFrameCheckedFirst(ids: ModelIds, files: Files, firstUrl: Option<string>, firstPath: Option<string>,
                               lastUrl: Option<string>, lastPath: Option<string>, prompt: string, model: string,
                               resolution: string, duration: int, cf: bool, seed: Option<int>, watermark: bool)
    ensures var first := ResolveSlot(files, firstUrl, firstPath, "first frame", "first_frame");
      first.Failure? ==>
        FirstLastFrameRequest(ids, files, firstUrl, firstPath, lastUrl, lastPath, prompt, model, resolution, duration, cf, seed, watermark)
        == Reject(first.error)
    ensures !Present(firstUrl) && !Present(firstPath) ==>
      FirstLastFrameRequest(ids, files, firstUrl, firstPath, lastUrl, lastPath, prompt, model, resolution, duration, cf, seed, watermark)
      == Reject(MissingSlotError("first_frame"))
  {
  }

  /**
    A first-last-frame request is sent exactly when both frames resolve, and
    then carries the prompt, the first frame and the last frame, with their
    roles; a last frame that does not resolve rejects it with its own error.
  */
  lemma FramesInOrder(ids: ModelIds, files: Files, firstUrl: Option<string>, firstPath: Option<string>,
                      lastUrl: Option<string>, lastPath: Option<string>, prompt: string, model: string,
                      resolution: string, duration: int, cf: bool, seed: Option<int>, watermark: bool)
    ensures var r := FirstLastFrameRequest(ids, files, firstUrl, firstPath, lastUrl, lastPath, prompt, model, resolution, duration, cf, seed, watermark);
      var first := ResolveSlot(files, firstUrl, firstPath, "first frame", "first_frame");
      var last := ResolveSlot(files, lastUrl, lastPath, "last frame", "last_frame");
      (r.Send? <==> first.Success? && last.Success?)
      && (first.Success? && last.Failure? ==> r == Reject(last.error))
    ensures var first := ResolveSlot(files, firstUrl, firstPath, "first frame", "first_frame");
      first.Success? && !Present(lastUrl) && !Present(lastPath) ==>
        FirstLastFrameRequest(ids, files, firstUrl, firstPath, lastUrl, lastPath, prompt, model, resolution, duration, cf, seed, watermark)
        == Reject(MissingSlotError("last_frame"))
    ensures var r := FirstLastFrameRequest(ids, files, firstUrl, firstPath, lastUrl, lastPath, prompt, model, resolution, duration, cf, seed, watermark);
      r.Send? ==>
        |r.payload.content| == 3
        && r.payload.content[0] == TextEntry(FirstLastFramePrompt(prompt, resolution, duration, cf, seed, watermark))
        && r.payload.content[1] == ImageEntry(ResolveSlot(files, firstUrl, firstPath, "first frame", "first_frame").value, Some(FirstFrame))
        && r.payload.content[2] == ImageEntry(ResolveSlot(files, lastUrl, lastPath, "last frame", "last_frame").value, Some(LastFrame))
        && r.payload.model == ids.liteI2v
  {
  }

  /**
    The reference-image count is checked before any file is read: an empty
    list or more than four entries is refused whatever the files hold, and
    blank entries count towards the limit.
  */
  lemma ReferenceCountChecked(ids: ModelIds, files: Files, refs: seq<Option<string>>, prompt: string, model: string,
                              resolution: string, duration: int, ratio: string, seed: Option<int>, watermark: bool)
    ensures |refs| == 0 ==> ImageRefsRequest(ids, files, refs, prompt, model, resolution, duration, ratio, seed, watermark) == Reject(NoReferenceError)
    ensures |refs| > 4 ==> ImageRefsRequest(ids, files, refs, prompt, model, resolution, duration, ratio, seed, watermark) == Reject(TooManyReferencesError)
  {
  }

  /**
    A sent image-references request holds the prompt followed by one entry per
    non-blank reference, in order; a list of blanks only sends the prompt alone.
  */
  lemma ReferencesSentInOrder(ids: ModelIds, files: Files, refs: seq<Option<string>>, prompt: string, model: string,
                              resolution: string, duration: int, ratio: string, seed: Option<int>, watermark: bool)
    ensures var r := ImageRefsRequest(ids, files, refs, prompt, model, resolution, duration, ratio, seed, watermark);
      var k := Kept(refs);
      r.Send? ==>
        1 <= |refs| <= 4 && |r.payload.content| == 1 + |k|
        && r.payload.content[0] == TextEntry(ImageRefsPrompt(prompt, resolution, duration, ratio, seed, watermark))
        && forall i :: 0 <= i < |k| ==>
             ReferenceUrl(files, k[i]).Success? && r.payload.content[i + 1] == ReferenceEntry(ReferenceUrl(files, k[i]).value)
    ensures var r := ImageRefsRequest(ids, files, refs, prompt, model, resolution, duration, ratio, seed, watermark);
      1 <= |refs| <= 4 ==> (r.Send? <==> forall i :: 0 <= i < |Kept(refs)| ==> ReferenceUrl(files, Kept(refs)[i]).Success?)
  {
    ReferenceEntriesInOrder(files, refs);
  }

  // ----- the wire format -----

  function EntryJson(e: Entry): Json
  {
    match e
    case TextEntry(t) => Obj([("type", Str("text")), ("text", Str(t))])
    case ImageEntry(u, None) => Obj([("type", Str("image_url")), ("image_url", Obj([("url", Str(u))]))])
    case ImageEntry(u, Some(role)) =>
      Obj([("type", Str("image_url")), ("image_url", Obj([("url", Str(u))])), ("role", Str(RoleName(role)))])
  }

  /** The JSON body posted to the task endpoint. */
  function PayloadJson(p: Payload): Json
  {
    Obj([("model", Str(p.model)), ("content", Arr(ContentJson(p.content)))])
  }

  function ContentJson(es: seq<Entry>): (items: seq<Json>)
    ensures |items| == |es|
  {
    if es == [] then [] else [EntryJson(es[0])] + ContentJson(es[1..])
  }

  function RoleOf(j: Json): Option<Option<Role>>
  {
    if j == Null then Some(None)
    else if j == Str("first_frame") then Some(Some(FirstFrame))
    else if j == Str("last_frame") then Some(Some(LastFrame))
    else if j == Str("reference_image") then Some(Some(ReferenceImage))
    else None
  }

  /** Reads one content element back, as the service would. */
  function EntryOf(j: Json): Option<Entry>
  {
    if !j.Obj? then None
    else
      var kind := Lookup(j.fields, "type", Null);
      if kind == Str("text") then
        var t := Lookup(j.fields, "text", Null);
        if t.Str? then Some(TextEntry(t.s)) else None
      else if kind == Str("image_url") then
        var img := Lookup(j.fields, "image_url", Null);
        var role := RoleOf(Lookup(j.fields, "role", Null));
        if !img.Obj? || role.None? then None
        else
          var u := Lookup(img.fields, "url", Null);
          if u.Str? then Some(ImageEntry(u.s, role.value)) else None
      else None
  }

  function EntriesOf(items: seq<Json>): (r: Option<seq<Entry>>)
    ensures r.Some? ==> |r.value| == |items|
  {
    if items == [] then Some([])
    else
      match EntryOf(items[0])
      case None => None
      case Some(e) =>
        var rest := EntriesOf(items[1..]);
        if rest.None? then None else Some([e] + rest.value)
  }

  function PayloadOf(j: Json): Option<Payload>
  {
    if !j.Obj? then None
    else
      var m := Lookup(j.fields, "model", Null);
      var c := Lookup(j.fields, "content", Null);
      if !m.Str? || !c.Arr? then None
      else
        var entries := EntriesOf(c.items);
        if entries.None? then None else Some(Payload(m.s, entries.value))
  }

  /** The wire keys are distinct. */
  lemma KeysDistinct()
    ensures "type" != "text" && "type" != "image_url" && "type" != "role"
    ensures "image_url" != "role" && "model" != "content"
  {
    assert "type"[2] != "text"[2];
    assert |"type"| != |"image_url"| && |"image_url"| != |"role"| && |"model"| != |"content"|;
    assert "type"[0] != "role"[0];
  }

  lemma TextEntryRoundTrip(t: string)
    ensures EntryOf(EntryJson(TextEntry(t))) == Some(TextEntry(t))
  {
    KeysDistinct();
    LookupHead("type", Str("text"), [("text", Str(t))], Null);
    LookupSkip("type", Str("text"), [("text", Str(t))], "text", Null);
    LookupHead("text", Str(t), [], Null);
  }

  lemma ImageFields(img: Json)
    ensures var f := [("type", Str("image_url")), ("image_url", img)];
      Lookup(f, "type", Null) == Str("image_url") && Lookup(f, "image_url", Null) == img && Lookup(f, "role", Null) == Null
  {
    KeysDistinct();
    assert [("type", Str("image_url")), ("image_url", img)] == [("type", Str("image_url"))] + [("image_url", img)];
    assert [("image_url", img)] == [("image_url", img)] + [];
    LookupHead("type", Str("image_url"), [("image_url", img)], Null);
    LookupSkip("type", Str("image_url"), [("image_url", img)], "image_url", Null);
    LookupSkip("type", Str("image_url"), [("image_url", img)], "role", Null);
    LookupHead("image_url", img, [], Null);
    LookupSkip("image_url", img, [], "role", Null);
  }

  lemma ImageFieldsWithRole(img: Json, role: Json)
    ensures var f := [("type", Str("image_url")), ("image_url", img), ("role", role)];
      Lookup(f, "type", Null) == Str("image_url") && Lookup(f, "image_url", Null) == img && Lookup(f, "role", Null) == role
  {
    KeysDistinct();
    var tail := [("image_url", img), ("role", role)];
    assert [("type", Str("image_url")), ("image_url", img), ("role", role)] == [("type", Str("image_url"))] + tail;
    assert tail == [("image_url", img)] + [("role", role)];
    assert [("role", role)] == [("role", role)] + [];
    LookupHead("type", Str("image_url"), tail, Null);
    LookupSkip("type", Str("image_url"), tail, "image_url", Null);
    LookupSkip("type", Str("image_url"), tail, "role", Null);
    LookupHead("image_url", img, [("role", role)], Null);
    LookupSkip("image_url", img, [("role", role)], "role", Null);
    LookupHead("role", role, [], Null);
  }

  lemma ImageEntryOf(j: Json, u: string, role: Option<Role>)
    requires j.Obj? && Lookup(j.fields, "type", Null) == Str("image_url")
    requires Lookup(j.fields, "image_url", Null) == Obj([("url", Str(u))])
    requires RoleOf(Lookup(j.fields, "role", Null)) == Some(role)
    ensures EntryOf(j) == Some(ImageEntry(u, role))
  {
    KeysDistinct();
    assert [("url", Str(u))] == [("url", Str(u))] + [];
    LookupHead("url", Str(u), [], Null);
  }

  /** Each role name reads back as its role, and a missing role as none. */
  lemma RoleRoundTrip(role: Role)
    ensures RoleOf(Str(RoleName(role))) == Some(Some(role))
    ensures RoleOf(Null) == Some(None)
  {
    assert "first_frame"[0] != "last_frame"[0] && "first_frame"[0] != "reference_image"[0];
    assert "last_frame"[0] != "reference_image"[0];
  }

  lemma ImageEntryRoundTrip(u: string, role: Option<Role>)
    ensures EntryOf(EntryJson(ImageEntry(u, role))) == Some(ImageEntry(u, role))
  {
    var img := Obj([("url", Str(u))]);
    var j := EntryJson(ImageEntry(u, role));
    if role.None? {
      assert j == Obj([("type", Str("image_url")), ("image_url", img)]);
      ImageFields(img);
      RoleRoundTrip(FirstFrame);
    } else {
      assert j == Obj([("type", Str("image_url")), ("image_url", img), ("role", Str(RoleName(role.value)))]);
      ImageFieldsWithRole(img, Str(RoleName(role.value)));
      RoleRoundTrip(role.value);
    }
    ImageEntryOf(j, u, role);
  }

  lemma EntryJsonRoundTrip(e: Entry)
    ensures EntryOf(EntryJson(e)) == Some(e)
  {
    match e
    case TextEntry(t) => TextEntryRoundTrip(t);
    case ImageEntry(u, role) => ImageEntryRoundTrip(u, role);
  }

  /** A list reads back element by element. */
  lemma EntriesOfCons(j: Json, e: Entry, rest: seq<Json>, es: seq<Entry>)
    requires EntryOf(j) == Some(e) && EntriesOf(rest) == Some(es)
    ensures EntriesOf([j] + rest) == Some([e] + es)
  {
    assert ([j] + rest)[0] == j && ([j] + rest)[1..] == rest;
  }

  lemma {:induction false} EntriesRoundTrip(es: seq<Entry>)
    ensures EntriesOf(ContentJson(es)) == Some(es)
  {
    if es != [] {
      EntryJsonRoundTrip(es[0]);
      EntriesRoundTrip(es[1..]);
      EntriesOfCons(EntryJson(es[0]), es[0], ContentJson(es[1..]), es[1..]);
      assert ContentJson(es) == [EntryJson(es[0])] + ContentJson(es[1..]);
      assert es == [es[0]] + es[1..];
    }
  }

  lemma PayloadFields(model: string, items: Json)
    ensures Lookup([("model", Str(model)), ("content", items)], "model", Null) == Str(model)
    ensures Lookup([("model", Str(model)), ("content", items)], "content", Null) == items
  {
    KeysDistinct();
    assert [("model", Str(model)), ("content", items)] == [("model", Str(model))] + [("content", items)];
    assert [("content", items)] == [("content", items)] + [];
    LookupHead("model", Str(model), [("content", items)], Null);
    LookupSkip("model", Str(model), [("content", items)], "content", Null);
    LookupHead("content", items, [], Null);
  }

  lemma PayloadOfParts(p: Payload, j: Json)
    requires j.Obj? && Lookup(j.fields, "model", Null) == Str(p.model)
    requires Lookup(j.fields, "content", Null).Arr? && EntriesOf(Lookup(j.fields, "content", Null).items) == Some(p.content)
    ensures PayloadOf(j) == Some(p)
  {
  }

  /** The posted body carries the model id and every content entry, in order, and nothing else. */
  lemma PayloadJsonRoundTrip(p: Payload)
    ensures PayloadOf(PayloadJson(p)) == Some(p)
  {
    EntriesRoundTrip(p.content);
    PayloadFields(p.model, Arr(ContentJson(p.content)));
    PayloadOfParts(p, PayloadJson(p));
  }

  // ----- posting -----

  /** The result of an HTTP call: a 2xx JSON object, or the exception with the response text when there was a response. */
  datatype Transport = Response(body: Fields) | TransportError(message: string, responseText: Option<string>)

  datatype HttpPost = HttpPost(url: string, headers: seq<(string, string)>, body: Json)

  function CreateCall(c: Client, p: Payload): HttpPost
  {
    HttpPost(TasksUrl(c), Headers(c), PayloadJson(p))
  }

  function CreationPrefix(mode: Mode): string
  {
    match mode
    case TextToVideo => "Failed to create text-to-video task: "
    case ImageToVideo => "Failed to create image-to-video task: "
    case FirstLastFrame => "Failed to create first-last frame task: "
    case ImageRefs => "Failed to create image refs task: "
  }

  /**
    The text reported for a failed post: text-to-video reports the exception
    itself; the other modes prefer the body of the error response when there
    was one.
  */
  function CreationErrorDetail(mode: Mode, message: string, responseText: Option<string>): (detail: string)
    ensures mode == TextToVideo ==> detail == message
    ensures mode != TextToVideo ==> detail == (if responseText.Some? then responseText.value else message)
  {
    if mode != TextToVideo && responseText.Some? then responseText.value else message
  }

  /** A dict holding only an `error` key. */
  function ErrorBody(msg: string): (body: Fields)
    ensures HasKey(body, "error") && Lookup(body, "error", Null) == Str(msg)
  {
    LookupHead("error", Str(msg), [], Null);
    assert [("error", Str(msg))] + [] == [("error", Str(msg))];
    assert [("error", Str(msg))][0].0 == "error";
    [("error", Str(msg))]
  }

  /**
    What a `create_*_task` call returns: the builder's error, the service's
    JSON body, or the mode's error message when the post raised.
  */
  function Submit(c: Client, mode: Mode, req: Request, post: HttpPost -> Transport): (body: Fields)
    ensures req.Reject? ==> body == ErrorBody(req.error)
    ensures req.Send? && post(CreateCall(c, req.payload)).Response? ==> body == post(CreateCall(c, req.payload)).body
    ensures req.Send? && post(CreateCall(c, req.payload)).TransportError? ==>
      var t := post(CreateCall(c, req.payload));
      body == ErrorBody(CreationPrefix(mode) + CreationErrorDetail(mode, t.message, t.responseText))
  {
    match req
    case Reject(e) => ErrorBody(e)
    case Send(p) =>
      match post(CreateCall(c, p))
      case Response(b) => b
      case TransportError(m, text) => ErrorBody(CreationPrefix(mode) + CreationErrorDetail(mode, m, text))
  }

  /** A request refused by its builder never reaches the network. */
  lemma RejectedRequestNotPosted(c: Client, mode: Mode, req: Request, post1: HttpPost -> Transport, post2: HttpPost -> Transport)
    requires req.Reject?
    ensures Submit(c, mode, req, post1) == Submit(c, mode, req, post2)
  {
  }

  // ----- the four builders (as written: step-by-step accumulation) -----

  /**
    The prompt text as every builder writes it: the user's text and the three
    fixed settings, then `--seed` when a seed is given, then the watermark flag.
  */
  method AnnotatePrompt(prompt: string, d: Dialect, resolution: string, duration: int, third: string,
                        seed: Option<int>, watermark: bool, alwaysSpace: bool) returns (fullPrompt: string)
    ensures fullPrompt == Annotate(prompt, FlagTokens(d, resolution, duration, third, seed, watermark), alwaysSpace)
  {
    ghost var lead := if alwaysSpace || prompt != "" then prompt + " " else "";
    if alwaysSpace || prompt != "" {
      fullPrompt := prompt + " " + FixedText(d, resolution, duration, third);
    } else {
      fullPrompt := FixedText(d, resolution, duration, third);
      assert fullPrompt == lead + fullPrompt;
    }
    ghost var fixed := fullPrompt;
    assert fixed == lead + FixedText(d, resolution, duration, third);
    if seed.Some? {
      fullPrompt := fullPrompt + " --seed " + DecimalString(seed.value);
    }
    assert fullPrompt == fixed + SeedText(seed);
    ghost var withSeed := fullPrompt;
    match d.style {
      case NoWatermarkSwitch =>
        if !watermark {
          fullPrompt := fullPrompt + " --no-watermark";
        }
      case WmBoolean =>
        fullPrompt := fullPrompt + " --wm " + BoolWord(watermark);
    }
    assert fullPrompt == withSeed + WatermarkText(d.style, watermark);
    AnnotatedText(prompt, d, resolution, duration, third, seed, watermark, alwaysSpace);
    ConcatFour(lead, FixedText(d, resolution, duration, third), SeedText(seed), WatermarkText(d.style, watermark));
  }

  lemma ConcatFour(a: string, b: string, c: string, d: string)
    ensures ((a + b) + c) + d == a + ((b + c) + d)
  {
  }

  method CreateTextToVideoTask(ids: ModelIds, prompt: string, model: string, resolution: string, duration: int,
                               ratio: string, seed: Option<int>, watermark: bool) returns (r: Request)
    ensures r == TextToVideoRequest(ids, prompt, model, resolution, duration, ratio, seed, watermark)
  {
    var fullPrompt := AnnotatePrompt(prompt, LongDialect, resolution, duration, ratio, seed, watermark, true);
    var modelId := ResolveModel(ids, TextToVideo, model);
    r := Send(Payload(modelId, [TextEntry(fullPrompt)]));
  }

  /** The URL or data URI of one image slot, as the image-to-video and first-last-frame builders write it out. */
  method ImageSlot(files: Files, url: Option<string>, path: Option<string>, noun: string, arg: string) returns (r: Result<string>)
    ensures r == ResolveSlot(files, url, path, noun, arg)
  {
    if Present(url) {
      return Success(url.value);
    } else if Present(path) {
      var b64 := files.encode(path.value);
      if b64.Failure? {
        return Failure(EncodeError(noun, b64.error));
      }
      var mime := MimeFor(files.guessMime(path.value));
      return Success(DataUri(mime, b64.value));
    } else {
      return Failure(MissingSlotError(arg));
    }
  }

  /** `ratio` is accepted and ignored: the prompt always asks for the adaptive ratio. */
  method CreateImageToVideoTask(ids: ModelIds, files: Files, imageUrl: Option<string>, imagePath: Option<string>,
                                prompt: string, model: string, resolution: string, duration: int, ratio: string,
                                seed: Option<int>, watermark: bool) returns (r: Request)
    ensures r == ImageToVideoRequest(ids, files, imageUrl, imagePath, prompt, model, resolution, duration, seed, watermark)
  {
    var content: seq<Entry> := [];
    var fullPrompt := AnnotatePrompt(prompt, LongDialect, resolution, duration, "adaptive", seed, watermark, false);
    content := content + [TextEntry(fullPrompt)];
    var image := ImageSlot(files, imageUrl, imagePath, "image", "image");
    if image.Failure? {
      return Reject(image.error);
    }
    content := content + [ImageEntry(image.value, None)];
    var modelId := ResolveModel(ids, ImageToVideo, model);
    r := Send(Payload(modelId, content));
  }

  method CreateFirstLastFrameTask(ids: ModelIds, files: Files, firstUrl: Option<string>, firstPath: Option<string>,
                                  lastUrl: Option<string>, lastPath: Option<string>, prompt: string, model: string,
                                  resolution: string, duration: int, cf: bool, seed: Option<int>, watermark: bool)
    returns (r: Request)
    ensures r == FirstLastFrameRequest(ids, files, firstUrl, firstPath, lastUrl, lastPath, prompt, model, resolution, duration, cf, seed, watermark)
  {
    var content: seq<Entry> := [];
    var fullPrompt := AnnotatePrompt(prompt, FrameDialect, resolution, duration, BoolWord(cf), seed, watermark, false);
    content := content + [TextEntry(fullPrompt)];
    var first := ImageSlot(files, firstUrl, firstPath, "first frame", "first_frame");
    if first.Failure? {
      return Reject(first.error);
    }
    content := content + [ImageEntry(first.value, Some(FirstFrame))];
    var last := ImageSlot(files, lastUrl, lastPath, "last frame", "last_frame");
    if last.Failure? {
      return Reject(last.error);
    }
    content := content + [ImageEntry(last.value, Some(LastFrame))];
    assert fullPrompt == FirstLastFramePrompt(prompt, resolution, duration, cf, seed, watermark);
    assert content == [TextEntry(fullPrompt), ImageEntry(first.value, Some(FirstFrame)), ImageEntry(last.value, Some(LastFrame))];
    var modelId := ResolveModel(ids, FirstLastFrame, model);
    r := Send(Payload(modelId, content));
  }

  /** `acc` put in front of a successful list; a failure passes through. */
  function Prepend(acc: seq<Entry>, r: Result<seq<Entry>>): Result<seq<Entry>>
  {
    if r.Failure? then r else Success(acc + r.value)
  }

  method CreateImageRefsTask(ids: ModelIds, files: Files, refs: seq<Option<string>>, prompt: string, model: string,
                             resolution: string, duration: int, ratio: string, seed: Option<int>, watermark: bool)
    returns (r: Request)
    ensures r == ImageRefsRequest(ids, files, refs, prompt, model, resolution, duration, ratio, seed, watermark)
  {
    if |refs| == 0 {
      return Reject(NoReferenceError);
    }
    if |refs| > 4 {
      return Reject(TooManyReferencesError);
    }
    var fullPrompt := AnnotatePrompt(prompt, RefsDialect, resolution, duration, ratio, seed, watermark, false);
    var content := [TextEntry(fullPrompt)];
    var i := 0;
    assert refs[i..] == refs;
    assert content[1..] == [];
    PrependNothing(ReferenceEntries(files, refs));
    while i < |refs|
      invariant 0 <= i <= |refs|
      invariant |content| >= 1 && content[0] == TextEntry(fullPrompt)
      invariant ReferenceEntries(files, refs) == Prepend(content[1..], ReferenceEntries(files, refs[i..]))
    {
      var ref := refs[i];
      ReferenceEntriesStep(files, refs, i);
      if Present(ref) {
        ghost var before := content;
        if StartsWith(ref.value, "http") {
          content := content + [ReferenceEntry(ref.value)];
        } else {
          var b64 := files.encode(ref.value);
          if b64.Failure? {
            return Reject(EncodeError("reference image", b64.error));
          }
          var mime := MimeFor(files.guessMime(ref.value));
          content := content + [ReferenceEntry(DataUri(mime, b64.value))];
        }
        assert content[1..] == before[1..] + [ReferenceEntry(ReferenceUrl(files, ref.value).value)];
        PrependStep(before[1..], ReferenceEntry(ReferenceUrl(files, ref.value).value), ReferenceEntries(files, refs[i + 1..]));
      }
      i := i + 1;
    }
    assert refs[i..] == [];
    assert content == [content[0]] + content[1..];
    var modelId := ResolveModel(ids, ImageRefs, model);
    r := Send(Payload(modelId, content));
  }

  /** One step of the reference list, as the loop takes it. */
  lemma ReferenceEntriesStep(files: Files, refs: seq<Option<string>>, i: nat)
    requires i < |refs|
    ensures !Present(refs[i]) ==> ReferenceEntries(files, refs[i..]) == ReferenceEntries(files, refs[i + 1..])
    ensures Present(refs[i]) && ReferenceUrl(files, refs[i].value).Failure? ==>
      ReferenceEntries(files, refs[i..]) == Failure(ReferenceUrl(files, refs[i].value).error)
    ensures Present(refs[i]) && ReferenceUrl(files, refs[i].value).Success? ==>
      var rest := ReferenceEntries(files, refs[i + 1..]);
      ReferenceEntries(files, refs[i..])
        == if rest.Failure? then rest else Success([ReferenceEntry(ReferenceUrl(files, refs[i].value).value)] + rest.value)
  {
    assert refs[i..][0] == refs[i] && refs[i..][1..] == refs[i + 1..];
  }

  lemma PrependNothing(r: Result<seq<Entry>>)
    ensures Prepend([], r) == r
  {
    if r.Success? {
      assert [] + r.value == r.value;
    }
  }

  lemma PrependStep(acc: seq<Entry>, e: Entry, rest: Result<seq<Entry>>)
    ensures Prepend(acc, if rest.Failure? then rest else Success([e] + rest.value)) == Prepend(acc + [e], rest)
  {
    if rest.Success? {
      assert acc + ([e] + rest.value) == (acc + [e]) + rest.value;
    }
  }
}
