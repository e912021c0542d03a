/**
 * Screenshot ingestion: check the image, store it, record a row, and remove the stored
 * object again when the row cannot be recorded. Clock, random suffix, image sniffing and
 * every platform answer are inputs.
 */
module Screenshot {
  import opened Wrappers
  import opened Http
  import opened Platform
  import Ascii
  import UtcTime
  import Auth
  import opened StoragePaths

  // ---------------------------------------------------------------------------
  // Image check

  /** What opening the bytes as an image gave: not an image, another exception, or a format name. */
  datatype Sniffed = Unidentified | SniffRaised(message: string) | Identified(format: Option<string>)

  /** `(im.format or "").upper()`. */
  function FormatName(format: Option<string>): string {
    Ascii.Upper(format.GetOr(""))
  }

  const NotAnImage := HttpError(UnsupportedMediaType, "File is not a recognized image.")

  function UnsupportedType(fmt: string): HttpError {
    HttpError(UnsupportedMediaType, "Unsupported image type: " + (if fmt == "" then "unknown" else fmt))
  }

  /** `_ensure_image`: the file extension for a PNG or JPEG, a 415 for anything else. */
  function EnsureImage(s: Sniffed): (r: Result<string, Fault>)
    ensures r == Success("png") <==> s.Identified? && FormatName(s.format) == "PNG"
    ensures r == Success("jpg") <==> s.Identified? && FormatName(s.format) == "JPEG"
    ensures r.Success? ==> r.value == "png" || r.value == "jpg"
    ensures s.Unidentified? ==> r == Failure(Raised(NotAnImage))
    ensures s.Identified? && r.Failure? ==> r == Failure(Raised(UnsupportedType(FormatName(s.format))))
    ensures r.Failure? && r.error.Raised? ==> r.error.error.status == UnsupportedMediaType
    ensures s.SniffRaised? ==> r == Failure(Exception(s.message))
  {
    match s
    case Unidentified => Failure(Raised(NotAnImage))
    case SniffRaised(message) => Failure(Exception(message))
    case Identified(format) =>
      var fmt := FormatName(format);
      if fmt == "PNG" then Success("png")
      else if fmt == "JPEG" then Success("jpg")
      else Failure(Raised(UnsupportedType(fmt)))
  }

  // ---------------------------------------------------------------------------
  // Public or signed URL

  const PublicFlagVariable := "SCREEN_STORAGE_PUBLIC"

  /** The bucket is treated as public unless the flag is empty, "0", "false" or "False". */
  predicate IsPublic(flag: string) {
    flag != "" && flag != "0" && flag != "false" && flag != "False"
  }

  /** `os.getenv("SCREEN_STORAGE_PUBLIC", "1")`: an unset variable means a public bucket. */
  function PublicFlag(env: map<string, string>): (flag: string)
    ensures PublicFlagVariable !in env ==> flag == "1" && IsPublic(flag)
    ensures PublicFlagVariable in env ==> flag == env[PublicFlagVariable]
  {
    if PublicFlagVariable in env then env[PublicFlagVariable] else "1"
  }

  /** Lifetime in seconds requested for a signed URL. */
  const SignedUrlLifetime := 3600

  /** What `create_signed_url` gave: it raised, it returned something other than a dict, or a dict. */
  datatype SignReply = SignRaised(message: string) | SignNotDict | SignDict(signedUrl: Option<string>)

  /** The signed URL when the dict holds a non-empty one, the bare path otherwise. */
  function SignedOrPath(reply: SignReply, path: string): (r: Result<string, Fault>)
    ensures reply.SignRaised? <==> r.Failure?
    ensures reply.SignRaised? ==> r == Failure(Exception(reply.message))
    ensures r.Success? && r.value != path ==> reply.SignDict? && reply.signedUrl == Some(r.value)
    ensures reply.SignDict? && reply.signedUrl.Some? && reply.signedUrl.value != "" ==>
              r == Success(reply.signedUrl.value)
    ensures reply.SignNotDict? || (reply.SignDict? && (reply.signedUrl.None? || reply.signedUrl.value == "")) ==>
              r == Success(path)
  {
    match reply
    case SignRaised(message) => Failure(Exception(message))
    case SignNotDict => Success(path)
    case SignDict(url) => if url.Some? && url.value != "" then Success(url.value) else Success(path)
  }

  /**
   * `_public_or_signed_url`. `publicUrlOf` is the storage client's public URL for a path and
   * `signer(path, lifetime)` its answer to a signed-URL request.
   */
  function PublicOrSignedUrl(flag: string, path: string, publicUrlOf: string -> string,
                             signer: (string, nat) -> SignReply): (r: Result<string, Fault>)
    ensures IsPublic(flag) ==> r == Success(publicUrlOf(path))
    ensures !IsPublic(flag) ==> r == SignedOrPath(signer(path, SignedUrlLifetime), path)
  {
    if IsPublic(flag) then Success(publicUrlOf(path))
    else SignedOrPath(signer(path, SignedUrlLifetime), path)
  }

  /** For a private bucket only the answer to a signed-URL request for `path` lasting 3600 s matters. */
  lemma PrivateUrlUsesOnlyOneSignRequest(flag: string, path: string, pub1: string -> string,
                                         pub2: string -> string, s1: (string, nat) -> SignReply,
                                         s2: (string, nat) -> SignReply)
    requires !IsPublic(flag) && s1(path, 3600) == s2(path, 3600)
    ensures PublicOrSignedUrl(flag, path, pub1, s1) == PublicOrSignedUrl(flag, path, pub2, s2)
  {
  }

  // ---------------------------------------------------------------------------
  // Upload

  /** `image.content_type or f"image/{ext}"`. */
  function ContentTypeFor(hint: Option<string>, ext: string): string {
    if hint.Some? && hint.value != "" then hint.value else "image/" + ext
  }

  /**
   * Everything the upload flow learns from outside: the clock, the random suffix, the image
   * sniffing, the process environment the module read its public flag from at import, and each platform call's answer.
   */
  datatype UploadWorld = UploadWorld(now: UtcTime.Instant, hex: string, sniffed: Sniffed,
                                     upload: UploadReply, env: map<string, string>,
                                     publicUrlOf: string -> string, signer: (string, nat) -> SignReply,
                                     insert: ShotReply, remove: RemoveReply)

  /** The success body of `/screenshots/upload`. */
  datatype UploadResponse = UploadResponse(imageUrl: string, record: ShotRow)

  /** The route's answer with the storage objects, the `screenshots` rows and the writes issued. */
  datatype UploadEffect = UploadEffect(result: Result<UploadResponse, HttpError>,
                                       objects: map<string, seq<bv8>>, shots: seq<ShotRow>,
                                       writes: seq<Write>)

  /** `except HTTPException: raise` / `except Exception as e: 500, str(e)`. */
  function Escalate(f: Fault): (e: HttpError)
    ensures f.Raised? ==> e == f.error
    ensures f.Exception? ==> e == HttpError(InternalServerError, f.message)
  {
    match f
    case Raised(error) => error
    case Exception(message) => HttpError(InternalServerError, message)
  }

  /** The capture time used: the supplied UTC time, or now. */
  function CapturedAt(captured: Option<UtcTime.Instant>, now: UtcTime.Instant): UtcTime.Instant {
    captured.GetOr(now)
  }

  /** The storage answer after the no-upsert rule: an occupied path is refused. */
  function StorageAnswer(objects: map<string, seq<bv8>>, path: string, reply: UploadReply): UploadReply {
    if path in objects && reply.UploadAccepted? then UploadErrorDict(DuplicateObject) else reply
  }

  /** The row the flow inserts. */
  function ShotFor(caller: Auth.User, url: string, captured: UtcTime.Instant): ShotRow {
    ShotRow(None, caller.id, url, UtcTime.IsoFormat(captured))
  }

  /**
   * The upload flow. With `cleanupOnRaise` false this is the route as written: the stored
   * object is removed only when the insert response reports an error. With it true the
   * removal also follows an insert that raises.
   */
  function UploadFlow(objects: map<string, seq<bv8>>, shots: seq<ShotRow>, caller: Auth.User,
                      raw: seq<bv8>, contentType: Option<string>, captured: Option<UtcTime.Instant>,
                      w: UploadWorld, cleanupOnRaise: bool): UploadEffect
  {
    match EnsureImage(w.sniffed)
    case Failure(f) => UploadEffect(Failure(Escalate(f)), objects, shots, [])
    case Success(ext) =>
      var at := CapturedAt(captured, w.now);
      var path := StoragePath(caller.id, at, w.hex, ext);
      var up := UploadObject(path, ContentTypeFor(contentType, ext));
      match StorageAnswer(objects, path, w.upload)
      case UploadErrorDict(message) =>
        UploadEffect(Failure(HttpError(InternalServerError, "Storage upload failed: " + message)),
                     objects, shots, [up])
      case UploadRaised(message) =>
        UploadEffect(Failure(HttpError(InternalServerError, message)), objects, shots, [up])
      case UploadAccepted =>
        var stored := objects[path := raw];
        match PublicOrSignedUrl(PublicFlag(w.env), path, w.publicUrlOf, w.signer)
        case Failure(f) => UploadEffect(Failure(Escalate(f)), stored, shots, [up])
        case Success(url) =>
          var row := ShotFor(caller, url, at);
          var ins := InsertScreenshot(row);
          var rolledBack := if w.remove.RemoveDone? then stored - {path} else stored;
          match w.insert
          case ShotInserted(id, echoed) =>
            var saved := row.(id := Some(id));
            UploadEffect(Success(UploadResponse(url, if echoed then saved else row)),
                         stored, shots + [saved], [up, ins])
          case ShotErrorReported(message) =>
            UploadEffect(Failure(HttpError(InternalServerError, "DB insert failed: " + message)),
                         rolledBack, shots, [up, ins, RemoveObjects([path])])
          case ShotInsertRaised(message) =>
            if cleanupOnRaise then
              UploadEffect(Failure(HttpError(InternalServerError, "DB insert failed: " + message)),
                           rolledBack, shots, [up, ins, RemoveObjects([path])])
            else
              UploadEffect(Failure(HttpError(InternalServerError, message)), stored, shots, [up, ins])
  }

  /** The key the flow uploads to once the image check gave `ext`. */
  function PathFor(caller: Auth.User, captured: Option<UtcTime.Instant>, w: UploadWorld, ext: string): string {
    StoragePath(caller.id, CapturedAt(captured, w.now), w.hex, ext)
  }

  /** The flow reaches the storage call and storage takes the object. */
  predicate StorageTakes(objects: map<string, seq<bv8>>, caller: Auth.User, captured: Option<UtcTime.Instant>,
                         w: UploadWorld)
  {
    EnsureImage(w.sniffed).Success?
    && StorageAnswer(objects, PathFor(caller, captured, w, EnsureImage(w.sniffed).value), w.upload).UploadAccepted?
  }

  /** What `_public_or_signed_url` gives for the key the flow uploads to. */
  function UrlFor(caller: Auth.User, captured: Option<UtcTime.Instant>, w: UploadWorld, ext: string): Result<string, Fault> {
    PublicOrSignedUrl(PublicFlag(w.env), PathFor(caller, captured, w, ext), w.publicUrlOf, w.signer)
  }

  /** The flow gets as far as inserting the row. */
  predicate ReachesInsert(objects: map<string, seq<bv8>>, caller: Auth.User, captured: Option<UtcTime.Instant>,
                          w: UploadWorld)
  {
    StorageTakes(objects, caller, captured, w)
    && UrlFor(caller, captured, w, EnsureImage(w.sniffed).value).Success?
  }

  /** `upload_screenshot` as written. */
  function UploadSpec(objects: map<string, seq<bv8>>, shots: seq<ShotRow>, caller: Auth.User,
                      raw: seq<bv8>, contentType: Option<string>, captured: Option<UtcTime.Instant>,
                      w: UploadWorld): (e: UploadEffect)
    // a rejected image: its 415 passes through, nothing is written
    ensures EnsureImage(w.sniffed).Failure? ==>
              e == UploadEffect(Failure(Escalate(EnsureImage(w.sniffed).error)), objects, shots, [])
    // the storage write is always the first write
    ensures e.writes != [] ==>
              var ext := EnsureImage(w.sniffed).value;
              EnsureImage(w.sniffed).Success?
              && e.writes[0] == UploadObject(PathFor(caller, captured, w, ext), ContentTypeFor(contentType, ext))
    // storage refused: a 500 and no insert
    ensures EnsureImage(w.sniffed).Success? && !StorageTakes(objects, caller, captured, w) ==>
              e.result.Failure? && e.result.error.status == InternalServerError
              && |e.writes| == 1 && e.objects == objects && e.shots == shots
    // an insert is issued only after storage took the object
    ensures |e.writes| > 1 ==>
              ReachesInsert(objects, caller, captured, w)
              && e.writes[1].InsertScreenshot?
    // an object already stored is never overwritten or removed
    ensures forall p :: p in objects ==> p in e.objects && e.objects[p] == objects[p]
    // the refusal's text: the error entry after "Storage upload failed: ", or the exception's text
    ensures EnsureImage(w.sniffed).Success? ==>
              var answer := StorageAnswer(objects, PathFor(caller, captured, w, EnsureImage(w.sniffed).value), w.upload);
              && (answer.UploadErrorDict? ==>
                    e.result == Failure(HttpError(InternalServerError, "Storage upload failed: " + answer.message)))
              && (answer.UploadRaised? ==> e.result == Failure(HttpError(InternalServerError, answer.message)))
    // storage took the object but the URL could not be made: no insert, no removal, the object stays
    ensures StorageTakes(objects, caller, captured, w) && !ReachesInsert(objects, caller, captured, w) ==>
              var path := PathFor(caller, captured, w, EnsureImage(w.sniffed).value);
              && w.signer(path, SignedUrlLifetime).SignRaised?
              && e.result == Failure(HttpError(InternalServerError, w.signer(path, SignedUrlLifetime).message))
    ensures StorageTakes(objects, caller, captured, w) && !ReachesInsert(objects, caller, captured, w) ==>
              var path := PathFor(caller, captured, w, EnsureImage(w.sniffed).value);
              && e.result.Failure? && |e.writes| == 1
              && e.objects == objects[path := raw] && e.shots == shots
    // an insert that reports an error: removal of the path attempted, its failure swallowed
    ensures ReachesInsert(objects, caller, captured, w) && w.insert.ShotErrorReported? ==>
              var path := PathFor(caller, captured, w, EnsureImage(w.sniffed).value);
              && e.result == Failure(HttpError(InternalServerError, "DB insert failed: " + w.insert.message))
              && |e.writes| == 3 && e.writes[2] == RemoveObjects([path])
              && e.shots == shots
              && (w.remove.RemoveDone? ==> e.objects == objects)
              && (w.remove.RemoveRaised? ==> e.objects == objects[path := raw])
    // success: object stored at the path, exactly one row appended, the URL returned is the one stored
    ensures e.result.Success? <==> ReachesInsert(objects, caller, captured, w) && w.insert.ShotInserted?
    ensures e.result.Success? ==>
              var path := PathFor(caller, captured, w, EnsureImage(w.sniffed).value);
              && e.objects == objects[path := raw]
              && |e.shots| == |shots| + 1 && e.shots[..|shots|] == shots
    ensures e.result.Success? ==>
              var saved := e.shots[|shots|];
              && saved.id == Some(w.insert.id) && saved.userId == caller.id
              && saved.imageUrl == e.result.value.imageUrl
              && saved.capturedAt == UtcTime.IsoFormat(CapturedAt(captured, w.now))
              && e.result.value.record == (if w.insert.echoed then saved else saved.(id := None))
    // the URL returned and inserted is the one resolved for the key
    ensures e.result.Success? ==>
              var url := UrlFor(caller, captured, w, EnsureImage(w.sniffed).value).value;
              && e.result.value.imageUrl == url
              && |e.writes| == 2 && e.writes[1] == InsertScreenshot(ShotFor(caller, url, CapturedAt(captured, w.now)))
    ensures e.result.Failure? ==> e.shots == shots
  {
    UploadFlow(objects, shots, caller, raw, contentType, captured, w, false)
  }

  /**
   * An insert that raises (rather than returning an error) skips the removal: the route
   * answers 500 and the uploaded object stays in storage with no row referring to it.
   */
  lemma RaisingInsertLeavesObject(objects: map<string, seq<bv8>>, shots: seq<ShotRow>, caller: Auth.User,
                                  raw: seq<bv8>, contentType: Option<string>,
                                  captured: Option<UtcTime.Instant>, w: UploadWorld)
    requires ReachesInsert(objects, caller, captured, w) && w.insert.ShotInsertRaised?
    ensures var e := UploadSpec(objects, shots, caller, raw, contentType, captured, w);
            var path := PathFor(caller, captured, w, EnsureImage(w.sniffed).value);
            && e.result == Failure(HttpError(InternalServerError, w.insert.message))
            && path !in objects && e.objects == objects[path := raw] && e.shots == shots
            && forall i :: 0 <= i < |e.writes| ==> !e.writes[i].RemoveObjects?
  {
  }

  /** The upload flow with the removal also after an insert that raises. */
  function UploadSpecWithCleanup(objects: map<string, seq<bv8>>, shots: seq<ShotRow>, caller: Auth.User,
                                 raw: seq<bv8>, contentType: Option<string>, captured: Option<UtcTime.Instant>,
                                 w: UploadWorld): (e: UploadEffect)
    // whenever a row insert was issued and did not succeed, removal of the path follows
    ensures ReachesInsert(objects, caller, captured, w) && !w.insert.ShotInserted? ==>
              var path := PathFor(caller, captured, w, EnsureImage(w.sniffed).value);
              && e.result.Failure? && e.shots == shots
              && |e.writes| == 3 && e.writes[2] == RemoveObjects([path])
              && (w.remove.RemoveDone? ==> e.objects == objects)
    // and only then does a storage object remain without its row
    ensures e.result.Failure? && e.objects != objects ==>
              StorageTakes(objects, caller, captured, w)
              && (!ReachesInsert(objects, caller, captured, w) || w.remove.RemoveRaised?)
    ensures e.result.Success? <==> ReachesInsert(objects, caller, captured, w) && w.insert.ShotInserted?
  {
    UploadFlow(objects, shots, caller, raw, contentType, captured, w, true)
  }

  /** `upload_screenshot` over the platform: its answer and effect are `UploadSpec`'s, that is `UploadFlow` without cleanup on raise. */
  method UploadScreenshot(b: Backend, caller: Auth.User, raw: seq<bv8>, contentType: Option<string>,
                          captured: Option<UtcTime.Instant>, w: UploadWorld)
    returns (r: Result<UploadResponse, HttpError>)
    modifies b`objects, b`screenshots, b`writes
    ensures var e := UploadFlow(old(b.objects), old(b.screenshots), caller, raw, contentType, captured, w, false);
            r == e.result && b.objects == e.objects && b.screenshots == e.shots
            && b.writes == old(b.writes) + e.writes
  {
    var checked := EnsureImage(w.sniffed);
    if checked.Failure? {
      return Failure(Escalate(checked.error));
    }
    var ext := checked.value;
    var at := CapturedAt(captured, w.now);
    var path := StoragePath(caller.id, at, w.hex, ext);
    var res := b.UploadObject(path, raw, ContentTypeFor(contentType, ext), w.upload);
    match res {
      case UploadErrorDict(message) =>
        return Failure(HttpError(InternalServerError, "Storage upload failed: " + message));
      case UploadRaised(message) =>
        return Failure(HttpError(InternalServerError, message));
      case UploadAccepted =>
    }
    var url := PublicOrSignedUrl(PublicFlag(w.env), path, w.publicUrlOf, w.signer);
    if url.Failure? {
      return Failure(Escalate(url.error));
    }
    var row := ShotFor(caller, url.value, at);
    b.InsertScreenshot(row, w.insert);
    match w.insert {
      case ShotInserted(id, echoed) =>
        var saved := row.(id := Some(id));
        r := Success(UploadResponse(url.value, if echoed then saved else row));
      case ShotErrorReported(message) =>
        b.RemoveObjects([path], w.remove);
        assert (set p | p in [path]) == {path};
        r := Failure(HttpError(InternalServerError, "DB insert failed: " + message));
      case ShotInsertRaised(message) =>
        r := Failure(HttpError(InternalServerError, message));
    }
  }

  // ---------------------------------------------------------------------------
  // Record only

  datatype RecordEffect = RecordEffect(result: Result<Option<string>, HttpError>, shots: seq<ShotRow>,
                                       writes: seq<Write>)

  /** `record_screenshot`: one insert per call; the answer carries the new row's id when it came back. */
  function RecordSpec(shots: seq<ShotRow>, caller: Auth.User, imageUrl: string,
                      captured: Option<UtcTime.Instant>, now: UtcTime.Instant, reply: ShotReply): (e: RecordEffect)
    ensures |e.writes| == 1 && e.writes[0].InsertScreenshot?
    ensures e.writes[0].shot == ShotRow(None, caller.id, imageUrl, UtcTime.IsoFormat(CapturedAt(captured, now)))
    ensures e.result.Success? <==> reply.ShotInserted?
    ensures reply.ShotInserted? ==>
              && e.shots == shots + [ShotRow(Some(reply.id), caller.id, imageUrl,
                                             UtcTime.IsoFormat(CapturedAt(captured, now)))]
              && e.result.value == (if reply.echoed then Some(reply.id) else None)
    ensures reply.ShotErrorReported? ==> e.result == Failure(HttpError(BadRequest, reply.message))
    ensures reply.ShotInsertRaised? ==> e.result == Failure(Unhandled)
    ensures e.result.Failure? ==> e.shots == shots
  {
    var row := ShotFor(caller, imageUrl, CapturedAt(captured, now));
    match reply
    case ShotInserted(id, echoed) =>
      RecordEffect(Success(if echoed then Some(id) else None), shots + [row.(id := Some(id))], [InsertScreenshot(row)])
    case ShotErrorReported(message) =>
      RecordEffect(Failure(HttpError(BadRequest, message)), shots, [InsertScreenshot(row)])
    case ShotInsertRaised(_) =>
      RecordEffect(Failure(Unhandled), shots, [InsertScreenshot(row)])
  }

  method RecordScreenshot(b: Backend, caller: Auth.User, imageUrl: string, captured: Option<UtcTime.Instant>,
                          now: UtcTime.Instant, reply: ShotReply)
    returns (r: Result<Option<string>, HttpError>)
    modifies b`screenshots, b`writes
    ensures var e := RecordSpec(old(b.screenshots), caller, imageUrl, captured, now, reply);
            r == e.result && b.screenshots == e.shots && b.writes == old(b.writes) + e.writes
  {
    var row := ShotFor(caller, imageUrl, CapturedAt(captured, now));
    b.InsertScreenshot(row, reply);
    match reply {
      case ShotInserted(id, echoed) => r := Success(if echoed then Some(id) else None);
      case ShotErrorReported(message) => r := Failure(HttpError(BadRequest, message));
      case ShotInsertRaised(_) => r := Failure(Unhandled);
    }
  }

  /** No deduplication: two identical successful calls add two rows that differ only in their ids. */
  lemma RecordTwiceAddsTwoRows(shots: seq<ShotRow>, caller: Auth.User, imageUrl: string,
                               captured: Option<UtcTime.Instant>, now: UtcTime.Instant,
                               id1: string, id2: string, echoed: bool)
    ensures var first := RecordSpec(shots, caller, imageUrl, captured, now, ShotInserted(id1, echoed));
            var second := RecordSpec(first.shots, caller, imageUrl, captured, now, ShotInserted(id2, echoed));
            && |second.shots| == |shots| + 2
            && second.shots[..|shots|] == shots
            && second.shots[|shots|].(id := None) == second.shots[|shots| + 1].(id := None)
            && second.shots[|shots|].id == Some(id1) && second.shots[|shots| + 1].id == Some(id2)
  {
  }
}
