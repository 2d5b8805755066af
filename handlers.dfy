/**
 * The HTTP handlers other than template instantiation, over already-decoded
 * requests. The store is the `PluginStore` of the `Db` module; engine failures
 * and the clock are inputs, and the runner, which the handlers see only through
 * an interface, is a function from an id and a script to its outcome.
 */
module ApiHandlers {
  import opened Prelude
  import opened Text
  import Decimal
  import Base64
  import opened Db
  import ApiTemplates

  /** A row as `GetAllPlugins` sends it: the image becomes a data URL. */
  datatype PluginResponse = PluginResponse(
    id: int,
    name: string,
    code: string,
    orderNum: int,
    image: Option<string>,
    imageType: Option<string>,
    runContinuously: bool,
    intervalSeconds: int)

  /** What a handler sends. `PluginsBody(None)` is the JSON `null` of a nil slice. */
  datatype Body =
    | ErrorBody(error: string)
    | TextBody(text: string)
    | ImageBody(contentType: string, data: seq<Byte>)
    | PluginBody(plugin: Plugin)
    | PluginsBody(plugins: Option<seq<PluginResponse>>)
    | TemplatesBody(templates: seq<ApiTemplates.Template>)
    | NoBody

  /** A reply, or a run-time panic (a nil dereference, an index out of range). */
  datatype Response = Reply(status: int, body: Body) | Panic

  const StatusOK := 200
  const StatusCreated := 201
  const StatusBadRequest := 400
  const StatusNotFound := 404
  const StatusInternalServerError := 500

  function Error(status: int, msg: string): Response {
    Reply(status, ErrorBody(msg))
  }

  /** The `:id` route parameter read with `strconv.Atoi`; `None` when that fails. */
  function ParseId(param: string): (r: Option<int>)
    ensures r.Some? ==> Decimal.InInt64(r.value)
    ensures r.None? <==> Decimal.Atoi(param).err.Some?
  {
    var p := Decimal.Atoi(param);
    if p.err.None? then Some(p.value) else None
  }

  /** Every Go `int`, printed in decimal, is accepted as an id. */
  lemma ParseIdItoa(n: int)
    requires Decimal.InInt64(n)
    ensures ParseId(Decimal.Itoa(n)) == Some(n)
  {
    Decimal.AtoiItoa(n);
  }

  /** How a store error is reported: no row is 404, anything else 500 with the engine's message. */
  function StoreFailure(e: StoreError): Response {
    match e
    case ErrNoRows => Error(StatusNotFound, "Plugin not found")
    case EngineError(msg) => Error(StatusInternalServerError, msg)
  }

  // ---------------------------------------------------------------------------
  // Handlers that only read.

  /**
   * `RunPlugin`: looks the plugin up and runs its code. The reply is 200 with exactly
   * the runner's output when the id parses, the row exists and the run succeeds.
   */
  function RunPlugin(store: PluginStore, param: string, fault: Option<string>,
                     run: (int, string) -> Result<string, string>): (r: Response)
    reads store
    ensures r.Reply?
    ensures ParseId(param).None? ==> r == Error(StatusBadRequest, "Invalid plugin ID")
    ensures ParseId(param).Some? && fault.Some? ==> r == Error(StatusInternalServerError, fault.value)
    ensures ParseId(param).Some? && fault.None? ==>
      var id := ParseId(param).value;
      && (id !in store.rows ==> r == Error(StatusNotFound, "Plugin not found"))
      && (id in store.rows && run(id, store.rows[id].code).Err? ==>
            r == Error(StatusInternalServerError, run(id, store.rows[id].code).error))
      && (id in store.rows && run(id, store.rows[id].code).Ok? ==>
            r == Reply(StatusOK, TextBody(run(id, store.rows[id].code).value)))
  {
    match ParseId(param)
    case None => Error(StatusBadRequest, "Invalid plugin ID")
    case Some(id) =>
      match store.GetByID(id, fault)
      case Err(e) => StoreFailure(e)
      case Ok(p) =>
        match run(id, p.code)
        case Err(msg) => Error(StatusInternalServerError, msg)
        case Ok(out) => Reply(StatusOK, TextBody(out))
  }

  /** The status of a `RunPlugin` reply is 200 exactly when the plugin exists and its run succeeds. */
  lemma RunPluginOk(store: PluginStore, param: string, fault: Option<string>,
                    run: (int, string) -> Result<string, string>)
    ensures RunPlugin(store, param, fault, run).status == StatusOK <==>
      ParseId(param).Some? && fault.None? && ParseId(param).value in store.rows &&
      run(ParseId(param).value, store.rows[ParseId(param).value].code).Ok?
  {
  }

  /**
   * `GetPluginImage`: the stored image bytes with the stored content type, or
   * `application/octet-stream` when there is none; a plugin without an image is 404.
   */
  function GetPluginImage(store: PluginStore, param: string, fault: Option<string>): (r: Response)
    reads store
    ensures r.Reply?
    ensures r.status == StatusOK <==>
      ParseId(param).Some? && fault.None? && ParseId(param).value in store.rows &&
      |store.rows[ParseId(param).value].image| > 0
    ensures r.status == StatusOK ==>
      var p := store.rows[ParseId(param).value];
      r.body == ImageBody(if p.imageType.Some? then p.imageType.value else "application/octet-stream", p.image)
    ensures (ParseId(param).Some? && fault.None? && ParseId(param).value in store.rows &&
             |store.rows[ParseId(param).value].image| == 0) ==> r == Error(StatusNotFound, "No image found")
  {
    match ParseId(param)
    case None => Error(StatusBadRequest, "Invalid plugin ID")
    case Some(id) =>
      match store.GetByID(id, fault)
      case Err(e) => StoreFailure(e)
      case Ok(p) =>
        if |p.image| == 0 then Error(StatusNotFound, "No image found")
        else Reply(StatusOK, ImageBody(if p.imageType.Some? then p.imageType.value else "application/octet-stream", p.image))
  }

  // ---------------------------------------------------------------------------
  // The data URLs of `GetAllPlugins` (RFC 2397, with base64 data).

  /** `data:<type>;base64,<encoding>` */
  function DataUrl(mediaType: string, image: seq<Byte>): string {
    "data:" + mediaType + ";base64," + Base64.Encode(image)
  }

  /** The index of the first `;` of `s`, or `|s|`. */
  function FirstSemi(s: string): (k: nat)
    ensures k <= |s| && forall j :: 0 <= j < k ==> s[j] != ';'
    ensures k < |s| ==> s[k] == ';'
    decreases |s|
  {
    if s == [] || s[0] == ';' then 0 else 1 + FirstSemi(s[1..])
  }

  /** Reads a base64 data URL back into its media type and its bytes. */
  function ParseDataUrl(u: string): Option<(string, seq<Byte>)> {
    if !HasPrefix(u, "data:") then None
    else
      var rest := u[5..];
      var k := FirstSemi(rest);
      if !HasPrefix(rest[k..], ";base64,") then None
      else
        match Base64.Decode(rest[k + 8..])
        case None => None
        case Some(bytes) => Some((rest[..k], bytes))
  }

  /** A data URL gives back its media type and image, for a media type without `;`. */
  lemma DataUrlRoundTrip(mediaType: string, image: seq<Byte>)
    requires ';' !in mediaType
    ensures ParseDataUrl(DataUrl(mediaType, image)) == Some((mediaType, image))
  {
    var u := DataUrl(mediaType, image);
    var rest := mediaType + ";base64," + Base64.Encode(image);
    assert u[..5] == "data:";
    assert u[5..] == rest;
    FirstSemiAt(mediaType, ";base64," + Base64.Encode(image));
    assert rest[|mediaType|..] == ";base64," + Base64.Encode(image);
    assert rest[|mediaType|..][..8] == ";base64,";
    assert rest[|mediaType| + 8..] == Base64.Encode(image);
    assert rest[..|mediaType|] == mediaType;
    Base64.DecodeEncode(image);
  }

  lemma FirstSemiAt(a: string, b: string)
    requires ';' !in a && |b| > 0 && b[0] == ';'
    ensures FirstSemi(a + b) == |a|
  {
    forall j | 0 <= j < |a| ensures (a + b)[j] != ';' {
      assert a[j] in a;
    }
    assert (a + b)[|a|] == ';';
  }

  /** A row has what its response needs: a stored image has a stored type. */
  predicate Shapeable(p: Plugin) {
    |p.image| > 0 ==> p.imageType.Some?
  }

  /** One row of the `GetAllPlugins` reply. */
  function ShapeRow(p: Plugin): (r: PluginResponse)
    requires Shapeable(p)
    ensures r.id == p.id && r.name == p.name && r.code == p.code && r.orderNum == p.orderNum
    ensures r.runContinuously == p.runContinuously && r.intervalSeconds == p.intervalSeconds
    ensures r.image.Some? <==> |p.image| > 0
    ensures r.imageType.Some? <==> |p.image| > 0
    ensures |p.image| > 0 ==> r.image == Some(DataUrl(p.imageType.value, p.image)) && r.imageType == p.imageType
  {
    if |p.image| > 0 then
      PluginResponse(p.id, p.name, p.code, p.orderNum, Some(DataUrl(p.imageType.value, p.image)), p.imageType,
                     p.runContinuously, p.intervalSeconds)
    else
      PluginResponse(p.id, p.name, p.code, p.orderNum, None, None, p.runContinuously, p.intervalSeconds)
  }

  /** A row's image comes back out of its response, with its type. */
  lemma ShapedImage(p: Plugin)
    requires Shapeable(p) && |p.image| > 0 && ';' !in p.imageType.value
    ensures ParseDataUrl(ShapeRow(p).image.value) == Some((p.imageType.value, p.image))
    ensures ShapeRow(p).imageType == p.imageType
  {
    DataUrlRoundTrip(p.imageType.value, p.image);
  }

  /**
   * The reply to a list of rows: one response per row, in the same order; a row with an
   * image but no type is a nil dereference; no rows at all is `null`.
   */
  function PluginsReply(ps: seq<Plugin>): (r: Response)
    ensures r.Panic? <==> exists k :: 0 <= k < |ps| && !Shapeable(ps[k])
    ensures r.Reply? ==> r.status == StatusOK && r.body.PluginsBody?
    ensures r.Reply? ==> (r.body.plugins.None? <==> ps == [])
    ensures r.Reply? && ps != [] ==>
      |r.body.plugins.value| == |ps| && forall k :: 0 <= k < |ps| ==> r.body.plugins.value[k] == ShapeRow(ps[k])
  {
    if exists k :: 0 <= k < |ps| && !Shapeable(ps[k]) then Panic
    else if ps == [] then Reply(StatusOK, PluginsBody(None))
    else Reply(StatusOK, PluginsBody(Some(seq(|ps|, k requires 0 <= k < |ps| => ShapeRow(ps[k])))))
  }

  /**
   * The shaping loop of `GetAllPlugins`: appends one response per row to a slice that
   * starts nil.
   */
  method ShapePlugins(ps: seq<Plugin>) returns (r: Response)
    ensures r == PluginsReply(ps)
  {
    var plugins: Option<seq<PluginResponse>> := None;
    var i := 0;
    while i < |ps|
      invariant 0 <= i <= |ps|
      invariant forall k :: 0 <= k < i ==> Shapeable(ps[k])
      invariant i == 0 <==> plugins.None?
      invariant plugins.Some? ==> plugins.value == seq(i, k requires 0 <= k < i => ShapeRow(ps[k]))
    {
      var p := ps[i];
      if |p.image| > 0 && p.imageType.None? {
        return Panic;
      }
      var row := ShapeRow(p);
      plugins := Some((if plugins.Some? then plugins.value else []) + [row]);
      i := i + 1;
    }
    r := Reply(StatusOK, PluginsBody(plugins));
  }

  /**
   * `GetAllPlugins`: the store's rows in its order, shaped. `full` is the store's
   * complete listing; an iteration the engine stopped early is shaped as it stands.
   */
  method GetAllPlugins(store: PluginStore, fault: ListFault) returns (r: Response, ghost full: seq<Plugin>)
    requires store.Valid()
    ensures fault.ListFails? ==> r == Error(StatusInternalServerError, fault.msg)
    ensures !fault.ListFails? ==>
      && SortedByOrder(full) && DistinctIds(full) && Ids(full) == store.rows.Keys
      && (forall k :: 0 <= k < |full| ==> full[k].id in store.rows && full[k] == store.rows[full[k].id])
    ensures fault.ListOk? ==> r == PluginsReply(full)
    ensures fault.NextStops? ==> r == PluginsReply(full[..Min(fault.read, |full|)])
  {
    var all;
    all, full := store.GetAll(fault);
    if all.Err? {
      return StoreFailure(all.error), full;
    }
    r := ShapePlugins(all.value);
  }

  // ---------------------------------------------------------------------------
  // Handlers that change the store.

  /** `DeletePlugin`: 200 once the row is gone, 404 when there was none. */
  method DeletePlugin(store: PluginStore, param: string, fault: Fault) returns (r: Response)
    requires store.Valid()
    modifies store
    ensures store.Valid()
    ensures ParseId(param).None? ==> r == Error(StatusBadRequest, "Invalid plugin ID") && store.rows == old(store.rows)
    ensures ParseId(param).Some? && !fault.ExecFails? ==> store.rows == old(store.rows) - {ParseId(param).value}
    ensures ParseId(param).Some? && fault.NoFault? ==>
      r == (if ParseId(param).value in old(store.rows) then Reply(StatusOK, NoBody) else Error(StatusNotFound, "Plugin not found"))
    ensures ParseId(param).Some? && !fault.NoFault? ==> r == Error(StatusInternalServerError, fault.msg)
  {
    var id := ParseId(param);
    if id.None? {
      return Error(StatusBadRequest, "Invalid plugin ID");
    }
    var err := store.Delete(id.value, fault);
    if err.Some? {
      return StoreFailure(err.value);
    }
    r := Reply(StatusOK, NoBody);
  }

  /** `UpdatePluginOrder`: a body that does not decode is `None`; the batch is all or nothing. */
  method UpdatePluginOrder(store: PluginStore, orders: Option<seq<Order>>, now: int, fault: TxFault) returns (r: Response)
    requires store.Valid()
    modifies store
    ensures store.Valid()
    ensures orders.None? ==> r == Error(StatusBadRequest, "Invalid request body") && store.rows == old(store.rows)
    ensures orders.Some? ==>
      && (r == Reply(StatusOK, NoBody) ==> store.rows == ApplyOrders(old(store.rows), orders.value, now))
      && (r != Reply(StatusOK, NoBody) ==>
           store.rows == old(store.rows) && !fault.TxOk? && r == Error(StatusInternalServerError, fault.msg))
  {
    if orders.None? {
      return Error(StatusBadRequest, "Invalid request body");
    }
    var err := store.UpdateOrder(orders.value, now, fault);
    if err.Some? {
      return StoreFailure(err.value);
    }
    r := Reply(StatusOK, NoBody);
  }

  // ---------------------------------------------------------------------------
  // The multipart forms of `CreatePlugin` and `UpdatePluginData`.

  /** The first file of the `image` field: its `Content-Type`, whether it opens, and its bytes if they read. */
  datatype Upload = Upload(contentType: string, opens: bool, data: Option<seq<Byte>>)

  /** A decoded multipart form: the text fields and the first `image` file, if any. */
  datatype Form = Form(values: map<string, seq<string>>, image: Option<Upload>)

  /** `form.Value[key]`'s first entry; indexing an absent or empty field panics. */
  function Field(form: Form, key: string): Option<string> {
    if key in form.values && |form.values[key]| > 0 then Some(form.values[key][0]) else None
  }

  /** `strconv.ParseBool` with its error dropped: anything it does not accept is false. */
  function ParseBool(s: string): (b: bool)
    ensures b <==> s in {"1", "t", "T", "TRUE", "true", "True"}
  {
    s == "1" || s == "t" || s == "T" || s == "TRUE" || s == "true" || s == "True"
  }

  /** `strconv.Atoi` with its error dropped: a syntax error is 0, an out-of-range value the nearest bound. */
  function AtoiOrZero(s: string): (n: int)
    ensures Decimal.InInt64(n)
  {
    Decimal.Atoi(s).value
  }

  /** The run fields of a form: both optional, false and 0 when absent. */
  function RunFields(form: Form): (bool, int) {
    var rc := Field(form, "run_continuously");
    var iv := Field(form, "interval_seconds");
    (rc.Some? && ParseBool(rc.value), if iv.Some? then AtoiOrZero(iv.value) else 0)
  }

  /**
   * The image part of a form: no file gives no bytes and an empty type; a file whose
   * `Content-Type` does not start with `image/` is rejected before it is opened.
   */
  function ImageOf(upload: Option<Upload>): (r: Result<(seq<Byte>, string), Response>)
    ensures r.Ok? && upload.None? ==> r.value == ([], "")
    ensures r.Ok? && upload.Some? ==> HasPrefix(r.value.1, "image/") && r.value.1 == upload.value.contentType
    ensures r.Err? && r.error.Reply? && r.error.status == StatusBadRequest <==> upload.Some? && !HasPrefix(upload.value.contentType, "image/")
    ensures r.Err? ==> r.error.Reply? && (r.error.status == StatusBadRequest || r.error.status == StatusInternalServerError)
  {
    match upload
    case None => Ok(([], ""))
    case Some(u) =>
      if !HasPrefix(u.contentType, "image/") then Err(Error(StatusBadRequest, "Invalid file type. Only images are allowed."))
      else if !u.opens then Err(Error(StatusInternalServerError, "Failed to process image"))
      else if u.data.None? then Err(Error(StatusInternalServerError, "Failed to read image data"))
      else Ok((u.data.value, u.contentType))
  }

  /** `CreatePlugin`: a form that does not decode is `None`; `order_num` is read with `Atoi`, errors dropped. */
  method CreatePlugin(store: PluginStore, form: Option<Form>, now: int, fault: Fault) returns (r: Response)
    requires store.Valid()
    modifies store
    ensures store.Valid()
    ensures r.Reply? && r.status != StatusCreated && !fault.ResultFails? ==> store.rows == old(store.rows)
    ensures form.None? ==> r == Error(StatusBadRequest, "Invalid form data")
    ensures form.Some? ==>
      var f := form.value;
      var name, code, order := Field(f, "name"), Field(f, "code"), Field(f, "order_num");
      && (name.None? || code.None? || order.None? ==> r.Panic?)
      && (name.Some? && code.Some? && order.Some? ==>
           (ImageOf(f.image).Err? ==> r == ImageOf(f.image).error && store.rows == old(store.rows))
           && (ImageOf(f.image).Ok? && fault.NoFault? ==>
                var (data, mediaType) := ImageOf(f.image).value;
                var id := store.lastId;
                && id !in old(store.rows)
                && store.rows == old(store.rows)[id := Plugin(id, name.value, code.value, AtoiOrZero(order.value), data,
                                                             Some(mediaType), RunFields(f).0, RunFields(f).1, now, now)]
                && r == Reply(StatusCreated, PluginBody(store.rows[id])))
           && (ImageOf(f.image).Ok? && !fault.NoFault? ==> r == Error(StatusInternalServerError, fault.msg))
           && (ImageOf(f.image).Ok? && fault.ExecFails? ==> store.rows == old(store.rows))
           && (ImageOf(f.image).Ok? && fault.ResultFails? ==>
                var (data, mediaType) := ImageOf(f.image).value;
                var id := store.lastId;
                && id !in old(store.rows)
                && store.rows == old(store.rows)[id := Plugin(id, name.value, code.value, AtoiOrZero(order.value), data,
                                                             Some(mediaType), RunFields(f).0, RunFields(f).1, now, now)]))
  {
    if form.None? {
      return Error(StatusBadRequest, "Invalid form data");
    }
    var f := form.value;
    var name, code, order := Field(f, "name"), Field(f, "code"), Field(f, "order_num");
    if name.None? || code.None? || order.None? {
      return Panic;
    }
    var (rc, iv) := RunFields(f);
    var image := ImageOf(f.image);
    if image.Err? {
      return image.error;
    }
    var plugin := Plugin(0, name.value, code.value, AtoiOrZero(order.value), image.value.0, Some(image.value.1), rc, iv, 0, 0);
    var created, err := store.Create(plugin, now, fault);
    if err.Some? {
      return StoreFailure(err.value);
    }
    r := Reply(StatusCreated, PluginBody(created));
  }

  /**
   * `UpdatePluginData`: replaces code, name, image, image type and the run fields of an
   * existing row, then reads it back. Without an uploaded file the image is cleared.
   */
  method UpdatePluginData(store: PluginStore, param: string, form: Option<Form>, now: int,
                          fault: Fault, readFault: Option<string>) returns (r: Response)
    requires store.Valid()
    modifies store
    ensures store.Valid()
    ensures ParseId(param).None? ==> r == Error(StatusBadRequest, "Invalid plugin ID") && store.rows == old(store.rows)
    ensures ParseId(param).Some? && form.None? ==> r == Error(StatusBadRequest, "Invalid form data") && store.rows == old(store.rows)
    ensures ParseId(param).Some? && form.Some? ==>
      var id, f := ParseId(param).value, form.value;
      var code, name := Field(f, "code"), Field(f, "name");
      && (code.None? || name.None? ==> r.Panic? && store.rows == old(store.rows))
      && (code.Some? && name.Some? && ImageOf(f.image).Err? ==> r == ImageOf(f.image).error && store.rows == old(store.rows))
      && (code.Some? && name.Some? && ImageOf(f.image).Ok? && fault.NoFault? ==>
           && (id !in old(store.rows) ==> r == Error(StatusNotFound, "Plugin not found") && store.rows == old(store.rows))
           && (id in old(store.rows) ==>
                var (data, mediaType) := ImageOf(f.image).value;
                var updated := old(store.rows)[id].(code := code.value, image := data, imageType := Some(mediaType),
                                                    name := name.value, runContinuously := RunFields(f).0,
                                                    intervalSeconds := RunFields(f).1, updatedAt := now);
                && store.rows == old(store.rows)[id := updated]
                && r == (if readFault.None? then Reply(StatusOK, PluginBody(updated)) else Error(StatusInternalServerError, readFault.value))))
      && (code.Some? && name.Some? && ImageOf(f.image).Ok? && !fault.NoFault? ==>
           && r == Error(StatusInternalServerError, fault.msg)
           && (fault.ExecFails? || id !in old(store.rows) ==> store.rows == old(store.rows))
           && (fault.ResultFails? && id in old(store.rows) ==>
                var (data, mediaType) := ImageOf(f.image).value;
                store.rows == old(store.rows)[id := old(store.rows)[id].(code := code.value, image := data,
                  imageType := Some(mediaType), name := name.value, runContinuously := RunFields(f).0,
                  intervalSeconds := RunFields(f).1, updatedAt := now)]))
  {
    var id := ParseId(param);
    if id.None? {
      return Error(StatusBadRequest, "Invalid plugin ID");
    }
    if form.None? {
      return Error(StatusBadRequest, "Invalid form data");
    }
    var f := form.value;
    var code, name := Field(f, "code"), Field(f, "name");
    if code.None? || name.None? {
      return Panic;
    }
    var (rc, iv) := RunFields(f);
    var image := ImageOf(f.image);
    if image.Err? {
      return image.error;
    }
    var err := store.UpdateCode(id.value, code.value, image.value.0, image.value.1, name.value, rc, iv, now, fault);
    if err.Some? {
      return StoreFailure(err.value);
    }
    var row := store.GetByID(id.value, readFault);
    if row.Err? {
      return Error(StatusInternalServerError, row.error.msg);
    }
    r := Reply(StatusOK, PluginBody(row.value));
  }

  /** A type the handlers store always starts with `image/`, unless no file was sent. */
  lemma StoredImageType(upload: Option<Upload>)
    requires ImageOf(upload).Ok?
    ensures ImageOf(upload).value.1 == "" || HasPrefix(ImageOf(upload).value.1, "image/")
    ensures |ImageOf(upload).value.0| > 0 ==> upload.Some?
  {
  }
}
