/**
 * The image upload endpoint (app/routes/api.upload/route.ts): magic-byte
 * sniffing, the ordered checks of `action` where the first failure decides the
 * response, and the insert into the `images` table, modelled as a store with
 * an auto-incremented id. Whether the database rejects the insert is an input.
 */
module UploadRoute {
  import opened Wrappers
  import opened Text
  import opened ImageConfig

  newtype byte = x: int | 0 <= x < 256

  /** `buffer[i]`: `undefined` past the end, which is strictly unequal to every byte. */
  function ByteAt(buffer: seq<byte>, i: nat): Option<byte>
  {
    if i < |buffer| then Some(buffer[i]) else None
  }

  predicate IsJpeg(buffer: seq<byte>)
  {
    ByteAt(buffer, 0) == Some(0xFF) && ByteAt(buffer, 1) == Some(0xD8) && ByteAt(buffer, 2) == Some(0xFF)
  }

  predicate IsPng(buffer: seq<byte>)
  {
    ByteAt(buffer, 0) == Some(0x89) && ByteAt(buffer, 1) == Some(0x50) &&
    ByteAt(buffer, 2) == Some(0x4E) && ByteAt(buffer, 3) == Some(0x47)
  }

  predicate IsGif(buffer: seq<byte>)
  {
    ByteAt(buffer, 0) == Some(0x47) && ByteAt(buffer, 1) == Some(0x49) && ByteAt(buffer, 2) == Some(0x46)
  }

  /** `validateImageSignature`: the bytes carry the signature of the declared type. */
  predicate ValidateImageSignature(buffer: seq<byte>, mimeType: string)
  {
    (mimeType == "image/jpeg" && IsJpeg(buffer)) ||
    (mimeType == "image/png" && IsPng(buffer)) ||
    (mimeType == "image/gif" && IsGif(buffer))
  }

  /** The signature table the check encodes, as a reference: one magic prefix per allowed type. */
  function Signature(mimeType: string): (sig: Option<seq<byte>>)
    ensures sig.Some? <==> mimeType in ALLOWED_TYPES
  {
    if mimeType == "image/jpeg" then Some([0xFF, 0xD8, 0xFF])
    else if mimeType == "image/png" then Some([0x89, 0x50, 0x4E, 0x47])
    else if mimeType == "image/gif" then Some([0x47, 0x49, 0x46])
    else None
  }

  /** The check passes exactly when the declared type has a signature and the bytes start with it. */
  lemma SignatureMeansPrefix(buffer: seq<byte>, mimeType: string)
    ensures ValidateImageSignature(buffer, mimeType) <==>
      Signature(mimeType).Some? && Signature(mimeType).value <= buffer
  {
    var sig := Signature(mimeType);
    if sig.Some? && sig.value <= buffer {
      assert forall i :: 0 <= i < |sig.value| ==> buffer[i] == sig.value[i];
    }
    if ValidateImageSignature(buffer, mimeType) {
      assert buffer[..|sig.value|] == sig.value;
    }
  }

  /** A buffer shorter than the declared type's signature never passes. */
  lemma ShortBufferFails(buffer: seq<byte>, mimeType: string)
    requires mimeType in ALLOWED_TYPES
    requires |buffer| < |Signature(mimeType).value|
    ensures !ValidateImageSignature(buffer, mimeType)
  {
    SignatureMeansPrefix(buffer, mimeType);
  }

  /** The three signatures start with different bytes, so a buffer passes for at most one declared type. */
  lemma AtMostOneType(buffer: seq<byte>, m1: string, m2: string)
    requires ValidateImageSignature(buffer, m1) && ValidateImageSignature(buffer, m2)
    ensures m1 == m2
  {
  }

  /** A three-byte JPEG header is enough; fewer than four bytes do not make every type fail. */
  lemma ThreeByteJpegPasses()
    ensures ValidateImageSignature([0xFF, 0xD8, 0xFF], "image/jpeg")
    ensures !ValidateImageSignature([0xFF, 0xD8, 0xFF], "image/png")
    ensures !ValidateImageSignature([0xFF, 0xD8, 0xFF], "image/gif")
  {
  }

  /** The uploaded `File`: `content` is `None` when `arrayBuffer()` rejects. */
  datatype UploadedFile = UploadedFile(name: string, mimeType: string, size: nat, content: Option<seq<byte>>)

  /** A multipart field holds either a file or plain text. */
  datatype FieldValue = FileField(file: UploadedFile) | TextField(text: string)

  /** The request: its HTTP method and its form body; `form` is `None` when `formData()` rejects. */
  datatype Request = Request(verb: string, form: Option<map<string, FieldValue>>)

  datatype Body =
    | PlainText(text: string)
    | ErrorJson(error: string, maxSize: Option<string>, allowedTypes: Option<string>)
    | UploadJson(url: string, id: string)

  datatype Response = Response(status: int, body: Body)

  /** `${MAX_FILE_SIZE / 1024 / 1024}MB` */
  function MaxSizeText(): string
  {
    NatToString(MAX_FILE_SIZE / 1024 / 1024) + "MB"
  }

  /** `ALLOWED_TYPES.join(", ")` */
  function AllowedTypesText(): string
  {
    Join(ALLOWED_TYPES, ", ")
  }

  lemma ErrorTexts()
    ensures MaxSizeText() == "5MB"
    ensures AllowedTypesText() == "image/jpeg, image/png, image/gif"
  {
  }

  const METHOD_NOT_ALLOWED := Response(405, PlainText("Method not allowed"))
  const UNPARSEABLE_FORM := Response(400, ErrorJson("Failed to parse form data", None, None))
  const NO_IMAGE := Response(400, PlainText("No image provided"))
  const TOO_LARGE := Response(400, ErrorJson("Image too large", Some(MaxSizeText()), None))
  const INVALID_TYPE := Response(400, ErrorJson("Invalid image type", None, Some(AllowedTypesText())))
  const NO_BUFFER := Response(400, ErrorJson("Failed to create buffer", None, None))
  const INVALID_CONTENT := Response(400, ErrorJson("Invalid image content", None, None))
  const SAVE_FAILED := Response(500, ErrorJson("Failed to save image", None, None))

  /** What passes every check: the file and the bytes read from it. */
  datatype Accepted = Accepted(file: UploadedFile, buffer: seq<byte>)

  /**
   * The checks of `action` before the insert, in the source's order. A text
   * field named `image` is truthy unless empty; its `size` is `undefined`, so
   * it passes the size check and fails the type check.
   */
  function Validate(req: Request): (r: Result<Accepted, Response>)
    ensures r.Ok? ==>
      && req.verb == "POST"
      && r.value.file.size <= MAX_FILE_SIZE
      && r.value.file.mimeType in ALLOWED_TYPES
      && r.value.file.content == Some(r.value.buffer)
      && ValidateImageSignature(r.value.buffer, r.value.file.mimeType)
    ensures r.Err? ==> r.error.status == 400 || r.error == METHOD_NOT_ALLOWED
  {
    if req.verb != "POST" then Err(METHOD_NOT_ALLOWED)
    else if req.form.None? then Err(UNPARSEABLE_FORM)
    else if "image" !in req.form.value || req.form.value["image"] == TextField("") then Err(NO_IMAGE)
    else
      match req.form.value["image"]
      case TextField(_) => Err(INVALID_TYPE)
      case FileField(f) =>
        if f.size > MAX_FILE_SIZE then Err(TOO_LARGE)
        else if f.mimeType !in ALLOWED_TYPES then Err(INVALID_TYPE)
        else if f.content.None? then Err(NO_BUFFER)
        else if !ValidateImageSignature(f.content.value, f.mimeType) then Err(INVALID_CONTENT)
        else Ok(Accepted(f, f.content.value))
  }

  /** The file field of a parsed form, when there is one. */
  function ImageFile(req: Request): Option<UploadedFile>
  {
    if req.form.Some? && "image" in req.form.value && req.form.value["image"].FileField?
    then Some(req.form.value["image"].file) else None
  }

  /** Every check passes exactly when all of them hold, and then the accepted file is the `image` field. */
  lemma ValidateAcceptsExactly(req: Request)
    ensures Validate(req).Ok? <==>
      req.verb == "POST" && ImageFile(req).Some? &&
      ImageFile(req).value.size <= MAX_FILE_SIZE &&
      ImageFile(req).value.mimeType in ALLOWED_TYPES &&
      ImageFile(req).value.content.Some? &&
      ValidateImageSignature(ImageFile(req).value.content.value, ImageFile(req).value.mimeType)
    ensures Validate(req).Ok? ==> Validate(req).value.file == ImageFile(req).value
  {
  }

  /** A non-POST request gets 405 whatever its body, and 405 is given for nothing else. */
  lemma MethodCheckComesFirst(req: Request)
    ensures Validate(req) == Err(METHOD_NOT_ALLOWED) <==> req.verb != "POST"
  {
  }

  /** A file over the cap is refused as too large, whatever its declared type and bytes. */
  lemma OversizeWinsOverTypeAndContent(name: string, mimeType: string, size: nat, content: Option<seq<byte>>)
    requires size > MAX_FILE_SIZE
    ensures Validate(Request("POST", Some(map["image" := FileField(UploadedFile(name, mimeType, size, content))])))
      == Err(TOO_LARGE)
  {
  }

  /** The size check is strict: a file of exactly the cap goes on to the later checks. */
  lemma ExactlyMaxSizePasses(name: string, buffer: seq<byte>)
    requires IsPng(buffer)
    ensures Validate(Request("POST", Some(map["image" := FileField(UploadedFile(name, "image/png", MAX_FILE_SIZE, Some(buffer)))])))
      == Ok(Accepted(UploadedFile(name, "image/png", MAX_FILE_SIZE, Some(buffer)), buffer))
  {
  }

  /** A file declared as PNG that carries a JPEG header is refused as invalid content. */
  lemma PngDeclaredJpegBytes(name: string, size: nat, buffer: seq<byte>)
    requires size <= MAX_FILE_SIZE && IsJpeg(buffer)
    ensures Validate(Request("POST", Some(map["image" := FileField(UploadedFile(name, "image/png", size, Some(buffer)))])))
      == Err(INVALID_CONTENT)
  {
  }

  /** Unreadable bytes are reported as "Failed to create buffer", never as "Failed to process image data". */
  lemma UnreadableBytes(name: string, mimeType: string, size: nat)
    requires size <= MAX_FILE_SIZE && mimeType in ALLOWED_TYPES
    ensures Validate(Request("POST", Some(map["image" := FileField(UploadedFile(name, mimeType, size, None))])))
      == Err(NO_BUFFER)
  {
  }

  /** A text value in the `image` field: empty is "no image", anything else fails the type check. */
  lemma TextFieldIsNotAnImage(text: string)
    ensures Validate(Request("POST", Some(map["image" := TextField(text)]))) ==
      if text == "" then Err(NO_IMAGE) else Err(INVALID_TYPE)
  {
  }

  /** A row of the `images` table. */
  datatype ImageRow = ImageRow(filename: string, originalName: string, mimeType: string, size: nat, data: seq<byte>)

  /** What every row written by the upload satisfies. */
  predicate WellFormedRow(row: ImageRow)
  {
    row.mimeType in ALLOWED_TYPES && row.size <= MAX_FILE_SIZE && ValidateImageSignature(row.data, row.mimeType)
  }

  /** The row the upload writes for an accepted file: the declared size, not the buffer's length. */
  function RowFor(a: Accepted): ImageRow
  {
    ImageRow(a.file.name, a.file.name, a.file.mimeType, a.file.size, a.buffer)
  }

  lemma AcceptedRowIsWellFormed(req: Request)
    requires Validate(req).Ok?
    ensures WellFormedRow(RowFor(Validate(req).value))
    ensures RowFor(Validate(req).value).size == ImageFile(req).value.size
  {
    ValidateAcceptsExactly(req);
  }

  /** The `images` table: rows by id, and the next auto-incremented id. */
  class ImageStore {
    var rows: map<nat, ImageRow>
    var nextId: nat

    ghost predicate Valid()
      reads this
    {
      nextId >= 1 &&
      (forall id :: id in rows ==> 1 <= id < nextId) &&
      (forall id :: id in rows ==> WellFormedRow(rows[id]))
    }

    constructor ()
      ensures Valid() && rows == map[] && nextId == 1
    {
      rows := map[];
      nextId := 1;
    }

    /** `db.insert(images).values(row).returning()`; `fails` stands for a database error. */
    method Insert(row: ImageRow, fails: bool) returns (id: Option<nat>)
      requires Valid() && WellFormedRow(row)
      modifies this
      ensures Valid()
      ensures fails ==> id == None && rows == old(rows) && nextId == old(nextId)
      ensures !fails ==>
        && id == Some(old(nextId))
        && old(nextId) !in old(rows)
        && rows == old(rows)[old(nextId) := row]
        && nextId == old(nextId) + 1
    {
      if fails {
        id := None;
      } else {
        id := Some(nextId);
        rows := rows[nextId := row];
        nextId := nextId + 1;
      }
    }
  }

  /**
   * `action`: the checks, then the insert, then the URL of the new image. No
   * row is written on any failure; on success exactly one, under a fresh id.
   */
  method Action(store: ImageStore, req: Request, cdn: string, dbFails: bool) returns (resp: Response)
    requires store.Valid()
    modifies store
    ensures store.Valid()
    ensures Validate(req).Err? ==> resp == Validate(req).error && store.rows == old(store.rows) && store.nextId == old(store.nextId)
    ensures Validate(req).Ok? && dbFails ==> resp == SAVE_FAILED && store.rows == old(store.rows) && store.nextId == old(store.nextId)
    ensures Validate(req).Ok? && !dbFails ==>
      var id := old(store.nextId);
      id !in old(store.rows) &&
      store.rows == old(store.rows)[id := RowFor(Validate(req).value)] &&
      resp == Response(200, UploadJson(GetImageUrl(cdn, id), NatToString(id)))
  {
    var checked := Validate(req);
    if checked.Err? {
      return checked.error;
    }
    var row := RowFor(checked.value);
    var id := store.Insert(row, dbFails);
    if id.None? {
      assert store.rows == old(store.rows) && store.nextId == old(store.nextId);
      return SAVE_FAILED;
    }
    resp := Response(200, UploadJson(GetImageUrl(cdn, id.value), NatToString(id.value)));
  }

  /** The URL returned by a successful upload reads back as the id returned beside it. */
  lemma UploadedUrlReadsBack(cdn: string, id: nat)
    requires id >= 1
    ensures ExtractIdFromUrl(cdn, GetImageUrl(cdn, id)) == Some(id)
    ensures ParseNumber(NatToString(id)) == Some(id)
  {
    ExtractOfGetImageUrl(cdn, id);
    ParseNumberOfIntToString(id);
  }
}
