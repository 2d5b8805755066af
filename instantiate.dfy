/**
 * `GetPluginTemplates` and `CreatePluginFromTemplate`: the template catalogue,
 * and a new plugin made from a template's source with its `const` declarations
 * rewritten to the request's variable values.
 *
 * Reading the embedded files is an input (`readSource`, and the catalogue as it
 * was read and decoded); so are the two request headers, the clock and the
 * engine's failure.
 */
module ApiInstantiate {
  import opened Prelude
  import opened Text
  import Decimal
  import opened Db
  import opened ApiRender
  import ApiRewrite
  import opened ApiTemplates
  import opened ApiHandlers

  /** The decoded request body: the template id and the variables, in the order the map hands them out. */
  datatype Request = Request(templateId: string, variables: seq<(string, Json)>)

  /** `list.json` as read and decoded: unreadable, not a map of categories, or the categories. */
  datatype Catalog = ReadFails | ParseFails | Catalog(categories: seq<Category>)

  /** No variable value holds a `$` (see `ApiRewrite.ReplaceAll`). */
  predicate DollarFree(vars: seq<(string, Json)>) {
    forall k :: 0 <= k < |vars| ==> NoDollar(vars[k].1)
  }

  /** `GetPluginTemplates`: every object listed under a category's `plugins` array. */
  method GetPluginTemplates(catalog: Catalog) returns (r: Response)
    ensures catalog.ReadFails? ==> r == Error(StatusInternalServerError, "Failed to read plugin templates")
    ensures catalog.ParseFails? ==> r == Error(StatusInternalServerError, "Failed to parse plugin templates")
    ensures catalog.Catalog? ==> r == Reply(StatusOK, TemplatesBody(Flatten(catalog.categories)))
  {
    match catalog
    case ReadFails => r := Error(StatusInternalServerError, "Failed to read plugin templates");
    case ParseFails => r := Error(StatusInternalServerError, "Failed to parse plugin templates");
    case Catalog(cats) =>
      var templates := FlattenTemplates(cats);
      r := Reply(StatusOK, TemplatesBody(templates));
  }

  /**
   * One variable: its rendering, the check that the source declares it, and the
   * rewrite of every declaration. Either failure is the 400 message.
   */
  function Substitute(content: string, key: string, v: Json): (r: Result<string, string>)
    requires NoDollar(v)
    ensures r.Err? ==> Contains(r.error, key)
    ensures r.Ok? ==> Render(key, v).Ok? && ApiRewrite.MatchString(content, key)
  {
    match Render(key, v)
    case Err(msg) =>
      RenderFails(key, v);
      Err(msg)
    case Ok(text) =>
      RenderNoDollar(key, v);
      if !ApiRewrite.MatchString(content, key) then
        NotFoundNames(key);
        Err("Variable " + key + " not found in template")
      else Ok(ApiRewrite.ReplaceAll(content, key, text))
  }

  lemma NotFoundNames(key: string)
    ensures Contains("Variable " + key + " not found in template", key)
  {
    ContainsSelf(key);
    ContainsInMiddle("Variable ", key, " not found in template", key);
  }

  /** The variables applied one after another to the template source; the first failure stops it. */
  function Instantiate(content: string, vars: seq<(string, Json)>): (r: Result<string, string>)
    requires DollarFree(vars)
    ensures r.Err? ==> exists k :: 0 <= k < |vars| && Contains(r.error, vars[k].0)
    decreases |vars|
  {
    if vars == [] then Ok(content)
    else
      match Substitute(content, vars[0].0, vars[0].1)
      case Err(e) => Err(e)
      case Ok(next) =>
        var r := Instantiate(next, vars[1..]);
        assert r.Err? ==> exists k :: 1 <= k < |vars| && Contains(r.error, vars[k].0) by {
          if r.Err? {
            var k :| 0 <= k < |vars[1..]| && Contains(r.error, vars[1..][k].0);
            assert vars[1..][k] == vars[k + 1];
          }
        }
        r
  }

  /**
   * A declared variable with a value that renders is rewritten: the code holds the
   * first declaration's `const NAME =` part followed by the rendering and `;`, and the
   * rendering reads back as the value.
   */
  lemma SubstituteRewrites(content: string, key: string, v: Json)
    requires NoDollar(v) && !v.JNull? && Substitute(content, key, v).Ok?
    ensures var m := ApiRewrite.FirstMatch(content, key, 0).value;
      var text := Render(key, v).value;
      && Contains(Substitute(content, key, v).value, content[m.start..m.body] + text + ";")
      && ReadLiteral(text) == Some(Meaning(v))
  {
    RenderNoDollar(key, v);
    ApiRewrite.ContainsRewrittenDecl(content, key, Render(key, v).value);
    RenderRoundTrip(key, v);
  }

  /** A variable the source does not declare fails with a message naming it. */
  lemma InstantiateUndeclared(content: string, key: string, v: Json)
    requires NoDollar(v) && Render(key, v).Ok? && !ApiRewrite.MatchString(content, key)
    ensures Instantiate(content, [(key, v)]) == Err("Variable " + key + " not found in template")
  {
  }

  /** Without variables the source is kept as it is. */
  lemma InstantiateNone(content: string)
    ensures Instantiate(content, []) == Ok(content)
  {
  }

  /** The `interval_seconds` header: its value when `Atoi` accepts it, else 0. */
  function HeaderInterval(h: string): (n: int)
    ensures Decimal.Atoi(h).err.None? ==> n == Decimal.Atoi(h).value
    ensures Decimal.Atoi(h).err.Some? ==> n == 0
  {
    var p := Decimal.Atoi(h);
    if p.err.None? then p.value else 0
  }

  /** A printed Go `int` sent as the header is the interval. */
  lemma HeaderIntervalItoa(n: int)
    requires Decimal.InInt64(n)
    ensures HeaderInterval(Decimal.Itoa(n)) == n
  {
    Decimal.AtoiItoa(n);
  }

  /**
   * What `CreatePluginFromTemplate` decides before it calls the store: the plugin it
   * will create, or the reply it sends instead. A template whose `file` is missing or
   * not a string panics at the type assertion.
   */
  function Outcome(body: Option<Request>, catalog: Catalog, readSource: string -> Option<string>,
                   runHeader: string, intervalHeader: string): (r: Result<Plugin, Response>)
    requires body.Some? ==> DollarFree(body.value.variables)
    ensures r.Ok? ==> r.value.orderNum == -1 && r.value.image == [] && r.value.imageType.None?
    ensures r.Ok? ==> r.value.runContinuously == (runHeader == "true") && r.value.intervalSeconds == HeaderInterval(intervalHeader)
    ensures r.Err? && r.error.Reply? ==> r.error.status in {StatusBadRequest, StatusNotFound, StatusInternalServerError}
  {
    if body.None? then Err(Error(StatusBadRequest, "Invalid request body"))
    else
      match catalog
      case ReadFails => Err(Error(StatusInternalServerError, "Failed to read plugin templates"))
      case ParseFails => Err(Error(StatusInternalServerError, "Failed to parse plugin templates"))
      case Catalog(cats) =>
        match FindTemplate(cats, body.value.templateId)
        case None => Err(Error(StatusNotFound, "Template not found"))
        case Some(t) =>
          if !t.file.Str? then Err(Panic)
          else
            match readSource(t.file.s)
            case None => Err(Error(StatusInternalServerError, "Failed to read template source"))
            case Some(source) =>
              match Instantiate(source, body.value.variables)
              case Err(e) => Err(Error(StatusBadRequest, e))
              case Ok(code) =>
                Ok(Plugin(0, TemplateName(t), code, -1, [], None, runHeader == "true", HeaderInterval(intervalHeader), 0, 0))
  }

  /** An unknown template id is 404, and nothing else is. */
  lemma UnknownTemplate(req: Request, cats: seq<Category>, readSource: string -> Option<string>,
                        runHeader: string, intervalHeader: string)
    requires DollarFree(req.variables)
    ensures Outcome(Some(req), Catalog(cats), readSource, runHeader, intervalHeader) == Err(Error(StatusNotFound, "Template not found"))
      <==> !exists t :: t in Flatten(cats) && HasId(t, req.templateId)
  {
    FindTemplateIff(cats, req.templateId);
  }

  /**
   * A plugin made from a template is named by its `title`, else its `name`, else the
   * requested id, and its code is the instantiated source.
   */
  lemma CreatedFromTemplate(req: Request, cats: seq<Category>, readSource: string -> Option<string>,
                            runHeader: string, intervalHeader: string)
    requires DollarFree(req.variables)
    requires Outcome(Some(req), Catalog(cats), readSource, runHeader, intervalHeader).Ok?
    ensures var t := FindTemplate(cats, req.templateId).value;
      var p := Outcome(Some(req), Catalog(cats), readSource, runHeader, intervalHeader).value;
      && t in Flatten(cats) && HasId(t, req.templateId) && t.file.Str?
      && p.name == (if t.title.Str? then t.title.s else if t.name.Str? then t.name.s else req.templateId)
      && readSource(t.file.s).Some?
      && Instantiate(readSource(t.file.s).value, req.variables) == Ok(p.code)
  {
    FoundTemplateName(cats, req.templateId);
    FindTemplateIff(cats, req.templateId);
    FirstWithIdFound(Flatten(cats), req.templateId);
  }

  lemma {:induction false} FirstWithIdFound(ts: seq<Template>, id: string)
    requires FirstWithId(ts, id).Some?
    ensures FirstWithId(ts, id).value in ts && HasId(FirstWithId(ts, id).value, id)
    decreases |ts|
  {
    if !HasId(ts[0], id) {
      FirstWithIdFound(ts[1..], id);
    }
  }

  /** A variable that fails is a 400 whose message names one of the request's variables. */
  lemma VariableFailure(req: Request, cats: seq<Category>, readSource: string -> Option<string>,
                        runHeader: string, intervalHeader: string)
    requires DollarFree(req.variables)
    requires var o := Outcome(Some(req), Catalog(cats), readSource, runHeader, intervalHeader);
      o.Err? && o.error.Reply? && o.error.status == StatusBadRequest
    ensures var o := Outcome(Some(req), Catalog(cats), readSource, runHeader, intervalHeader);
      exists k :: 0 <= k < |req.variables| && Contains(o.error.body.error, req.variables[k].0)
  {
  }

  /** The variable loop: `content` is reassigned once per variable. */
  method ApplyVariables(source: string, vars: seq<(string, Json)>) returns (r: Result<string, string>)
    requires DollarFree(vars)
    ensures r == Instantiate(source, vars)
  {
    var content := source;
    var i := 0;
    while i < |vars|
      invariant 0 <= i <= |vars|
      invariant DollarFree(vars[i..])
      invariant Instantiate(content, vars[i..]) == Instantiate(source, vars)
    {
      var (key, value) := vars[i];
      assert vars[i..][0] == vars[i] && vars[i..][1..] == vars[i + 1..];
      var text := RenderValue(key, value);
      if text.Err? {
        return Err(text.error);
      }
      RenderNoDollar(key, value);
      if !ApiRewrite.MatchString(content, key) {
        return Err("Variable " + key + " not found in template");
      }
      content := ApiRewrite.ReplaceAll(content, key, text.value);
      i := i + 1;
    }
    assert vars[i..] == [];
    r := Ok(content);
  }

  /**
   * The steps of `CreatePluginFromTemplate` before the store is called: the template is
   * searched category by category with a found flag, its source read, the variables applied.
   */
  method Prepare(body: Option<Request>, catalog: Catalog, readSource: string -> Option<string>,
                 runHeader: string, intervalHeader: string) returns (o: Result<Plugin, Response>)
    requires body.Some? ==> DollarFree(body.value.variables)
    ensures o == Outcome(body, catalog, readSource, runHeader, intervalHeader)
  {
    if body.None? {
      return Err(Error(StatusBadRequest, "Invalid request body"));
    }
    var req := body.value;
    if catalog.ReadFails? {
      return Err(Error(StatusInternalServerError, "Failed to read plugin templates"));
    }
    if catalog.ParseFails? {
      return Err(Error(StatusInternalServerError, "Failed to parse plugin templates"));
    }
    var found, selected := LookupTemplate(catalog.categories, req.templateId);
    if !found {
      return Err(Error(StatusNotFound, "Template not found"));
    }
    if !selected.file.Str? {
      return Err(Panic);
    }
    var source := readSource(selected.file.s);
    if source.None? {
      return Err(Error(StatusInternalServerError, "Failed to read template source"));
    }
    var code := ApplyVariables(source.value, req.variables);
    if code.Err? {
      return Err(Error(StatusBadRequest, code.error));
    }
    o := Ok(Plugin(0, TemplateName(selected), code.value, -1, [], None, runHeader == "true", HeaderInterval(intervalHeader), 0, 0));
  }

  /** `CreatePluginFromTemplate`: the plugin is stored only when every earlier step succeeded. */
  method CreatePluginFromTemplate(store: PluginStore, body: Option<Request>, catalog: Catalog,
                                  readSource: string -> Option<string>, runHeader: string, intervalHeader: string,
                                  now: int, fault: Fault) returns (r: Response)
    requires store.Valid()
    requires body.Some? ==> DollarFree(body.value.variables)
    modifies store
    ensures store.Valid()
    ensures var o := Outcome(body, catalog, readSource, runHeader, intervalHeader);
      && (o.Err? ==> r == o.error && store.rows == old(store.rows) && store.lastId == old(store.lastId))
      && (o.Ok? && fault.ExecFails? ==> r == Error(StatusInternalServerError, fault.msg) && store.rows == old(store.rows))
      && (o.Ok? && fault.ResultFails? ==> r == Error(StatusInternalServerError, fault.msg))
      && (o.Ok? && !fault.ExecFails? ==>
           store.lastId !in old(store.rows) &&
           store.rows == old(store.rows)[store.lastId := o.value.(id := store.lastId, createdAt := now, updatedAt := now)])
      && (o.Ok? && fault.NoFault? ==> r == Reply(StatusCreated, PluginBody(store.rows[store.lastId])))
  {
    var o := Prepare(body, catalog, readSource, runHeader, intervalHeader);
    if o.Err? {
      return o.error;
    }
    var created, err := store.Create(o.value, now, fault);
    if err.Some? {
      return Error(StatusInternalServerError, err.value.msg);
    }
    r := Reply(StatusCreated, PluginBody(created));
  }
}
