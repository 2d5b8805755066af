/**
 * The plugin template catalogue (`list.json`): categories, each with an optional
 * `plugins` array of entries. The catalogue is a JSON object keyed by category, so
 * Go visits its categories in an unspecified order; the model takes that order as
 * the order of the `seq`.
 */
module ApiTemplates {
  import opened Prelude

  /** A field of a decoded JSON object, as a `.(string)` type assertion sees it. */
  datatype Field = Missing | Str(s: string) | NotAString

  /** A template object; only the fields the server reads are kept. */
  datatype Template = Template(id: Field, title: Field, name: Field, file: Field)

  /** An element of a `plugins` array: an object, or any other JSON value. */
  datatype Entry = Object(t: Template) | NotAnObject

  /** A category; `plugins` is `None` when the key is missing or does not hold an array. */
  datatype Category = Category(plugins: Option<seq<Entry>>)

  /** The template an entry holds, if it is an object. */
  function EntryObjects(e: Entry): seq<Template> {
    if e.Object? then [e.t] else []
  }

  /** The objects among one category's entries, in order. */
  function Objects(entries: seq<Entry>): (ts: seq<Template>)
    ensures |ts| <= |entries|
  {
    if entries == [] then [] else EntryObjects(entries[0]) + Objects(entries[1..])
  }

  /** The objects of a category with a `plugins` array; none otherwise. */
  function CategoryObjects(c: Category): seq<Template> {
    if c.plugins.Some? then Objects(c.plugins.value) else []
  }

  /** Every template object of every category that has a `plugins` array, in visiting order. */
  function Flatten(cats: seq<Category>): seq<Template> {
    if cats == [] then [] else CategoryObjects(cats[0]) + Flatten(cats[1..])
  }

  lemma {:induction false} ObjectsAppend(a: seq<Entry>, b: seq<Entry>)
    ensures Objects(a + b) == Objects(a) + Objects(b)
    decreases |a|
  {
    if a == [] {
      assert a + b == b;
    } else {
      assert (a + b)[1..] == a[1..] + b;
      ObjectsAppend(a[1..], b);
    }
  }

  lemma {:induction false} FlattenAppend(a: seq<Category>, b: seq<Category>)
    ensures Flatten(a + b) == Flatten(a) + Flatten(b)
    decreases |a|
  {
    if a == [] {
      assert a + b == b;
    } else {
      assert (a + b)[1..] == a[1..] + b;
      FlattenAppend(a[1..], b);
    }
  }

  lemma ObjectsSnoc(entries: seq<Entry>, j: nat)
    requires j < |entries|
    ensures Objects(entries[..j + 1]) == Objects(entries[..j]) + EntryObjects(entries[j])
  {
    assert entries[..j + 1] == entries[..j] + [entries[j]];
    ObjectsAppend(entries[..j], [entries[j]]);
  }

  lemma FlattenSnoc(cats: seq<Category>, c: nat)
    requires c < |cats|
    ensures Flatten(cats[..c + 1]) == Flatten(cats[..c]) + CategoryObjects(cats[c])
  {
    assert cats[..c + 1] == cats[..c] + [cats[c]];
    FlattenAppend(cats[..c], [cats[c]]);
    assert Flatten([cats[c]]) == CategoryObjects(cats[c]) + Flatten([]);
  }

  /** The `GetPluginTemplates` loops: append each map entry of each category's array. */
  method FlattenTemplates(cats: seq<Category>) returns (templates: seq<Template>)
    ensures templates == Flatten(cats)
  {
    templates := [];
    var c := 0;
    while c < |cats|
      invariant 0 <= c <= |cats|
      invariant templates == Flatten(cats[..c])
    {
      FlattenSnoc(cats, c);
      if cats[c].plugins.Some? {
        templates := AppendObjects(templates, cats[c].plugins.value);
      }
      c := c + 1;
    }
    assert cats[..c] == cats;
  }

  /** The inner loop of `GetPluginTemplates`: appends the map entries of one `plugins` array. */
  method AppendObjects(templates: seq<Template>, plugins: seq<Entry>) returns (r: seq<Template>)
    ensures r == templates + Objects(plugins)
  {
    r := templates;
    var j := 0;
    while j < |plugins|
      invariant 0 <= j <= |plugins|
      invariant r == templates + Objects(plugins[..j])
    {
      ObjectsSnoc(plugins, j);
      if plugins[j].Object? {
        r := r + [plugins[j].t];
      }
      j := j + 1;
    }
    assert plugins[..j] == plugins;
  }

  /** The template an entry holds when its `id` is the string `id`. */
  predicate HasId(t: Template, id: string) {
    t.id == Str(id)
  }

  /** The first template in a list whose `id` is `id`. */
  function FirstWithId(ts: seq<Template>, id: string): (r: Option<Template>)
    ensures r.Some? ==> r.value in ts && HasId(r.value, id)
    ensures r.None? ==> forall k :: 0 <= k < |ts| ==> !HasId(ts[k], id)
  {
    if ts == [] then None
    else if HasId(ts[0], id) then Some(ts[0])
    else FirstWithId(ts[1..], id)
  }

  /** The lookup of `CreatePluginFromTemplate`: the first match while visiting categories in order. */
  function FindTemplate(cats: seq<Category>, id: string): Option<Template> {
    FirstWithId(Flatten(cats), id)
  }

  lemma {:induction false} FirstWithIdAppend(a: seq<Template>, b: seq<Template>, id: string)
    ensures FirstWithId(a + b, id) == if FirstWithId(a, id).Some? then FirstWithId(a, id) else FirstWithId(b, id)
    decreases |a|
  {
    if a == [] {
      assert a + b == b;
    } else {
      assert (a + b)[0] == a[0];
      assert (a + b)[1..] == a[1..] + b;
      FirstWithIdAppend(a[1..], b, id);
    }
  }

  /** No match in the categories before `c` nor in `c` itself: none before `c + 1`. */
  lemma NoneThrough(cats: seq<Category>, c: nat, id: string)
    requires c < |cats|
    requires FirstWithId(Flatten(cats[..c]), id).None? && FirstWithId(CategoryObjects(cats[c]), id).None?
    ensures FirstWithId(Flatten(cats[..c + 1]), id).None?
  {
    FlattenSnoc(cats, c);
    FirstWithIdAppend(Flatten(cats[..c]), CategoryObjects(cats[c]), id);
  }

  /** A first match in the middle part, with none before it, is the first match of the whole. */
  lemma FirstWithIdMiddle(a: seq<Template>, b: seq<Template>, rest: seq<Template>, id: string, t: Template)
    requires FirstWithId(a, id).None? && FirstWithId(b, id) == Some(t)
    ensures FirstWithId(a + b + rest, id) == Some(t)
  {
    FirstWithIdAppend(a, b, id);
    FirstWithIdAppend(a + b, rest, id);
  }

  lemma SplitAt<T>(s: seq<T>, i: nat)
    requires i <= |s|
    ensures s == s[..i] + s[i..]
  {
  }

  lemma ObjectsSplit(plugins: seq<Entry>, j: nat)
    requires j < |plugins|
    ensures Objects(plugins) == Objects(plugins[..j]) + EntryObjects(plugins[j]) + Objects(plugins[j + 1..])
  {
    ObjectsSnoc(plugins, j);
    SplitAt(plugins, j + 1);
    ObjectsAppend(plugins[..j + 1], plugins[j + 1..]);
  }

  lemma FlattenSplit(cats: seq<Category>, c: nat)
    requires c < |cats|
    ensures Flatten(cats) == Flatten(cats[..c]) + CategoryObjects(cats[c]) + Flatten(cats[c + 1..])
  {
    FlattenSnoc(cats, c);
    SplitAt(cats, c + 1);
    FlattenAppend(cats[..c + 1], cats[c + 1..]);
  }

  /** The first match in one category is its entry `j`. */
  lemma FoundInCategory(plugins: seq<Entry>, j: nat, id: string)
    requires j < |plugins| && FirstWithId(Objects(plugins[..j]), id).None?
    requires plugins[j].Object? && HasId(plugins[j].t, id)
    ensures FirstWithId(Objects(plugins), id) == Some(plugins[j].t)
  {
    ObjectsSplit(plugins, j);
    assert FirstWithId(EntryObjects(plugins[j]), id) == Some(plugins[j].t);
    FirstWithIdMiddle(Objects(plugins[..j]), EntryObjects(plugins[j]), Objects(plugins[j + 1..]), id, plugins[j].t);
  }

  /** The first match in the visiting order lies in category `c`. */
  lemma FoundInCatalog(cats: seq<Category>, c: nat, id: string, t: Template)
    requires c < |cats| && FirstWithId(Flatten(cats[..c]), id).None?
    requires FirstWithId(CategoryObjects(cats[c]), id) == Some(t)
    ensures FindTemplate(cats, id) == Some(t)
  {
    FlattenSplit(cats, c);
    FirstWithIdMiddle(Flatten(cats[..c]), CategoryObjects(cats[c]), Flatten(cats[c + 1..]), id, t);
  }

  /**
   * The lookup loops as written: an inner loop over one category's entries that stops
   * at the first object with the id, and an outer loop that stops once it is found.
   */
  method LookupTemplate(cats: seq<Category>, id: string) returns (found: bool, selected: Template)
    ensures found <==> FindTemplate(cats, id).Some?
    ensures found ==> selected == FindTemplate(cats, id).value
  {
    found := false;
    selected := Template(Missing, Missing, Missing, Missing);
    var c := 0;
    while c < |cats|
      invariant 0 <= c <= |cats|
      invariant !found ==> FirstWithId(Flatten(cats[..c]), id).None?
      invariant found ==> FindTemplate(cats, id) == Some(selected)
    {
      if cats[c].plugins.Some? {
        var t;
        found, t := ScanCategory(cats[c].plugins.value, id);
        if found {
          FoundInCatalog(cats, c, id, t);
          selected := t;
          break;
        }
      }
      NoneThrough(cats, c, id);
      c := c + 1;
    }
    if !found {
      assert cats[..c] == cats;
    }
  }

  /** The inner lookup loop: the first object of one `plugins` array whose `id` is the string `id`. */
  method ScanCategory(plugins: seq<Entry>, id: string) returns (found: bool, selected: Template)
    ensures found <==> FirstWithId(Objects(plugins), id).Some?
    ensures found ==> selected == FirstWithId(Objects(plugins), id).value
  {
    found := false;
    selected := Template(Missing, Missing, Missing, Missing);
    var j := 0;
    while j < |plugins|
      invariant 0 <= j <= |plugins|
      invariant FirstWithId(Objects(plugins[..j]), id).None?
    {
      if plugins[j].Object? && plugins[j].t.id.Str? && plugins[j].t.id.s == id {
        FoundInCategory(plugins, j, id);
        return true, plugins[j].t;
      }
      ObjectsSnoc(plugins, j);
      FirstWithIdAppend(Objects(plugins[..j]), EntryObjects(plugins[j]), id);
      j := j + 1;
    }
    assert plugins[..j] == plugins;
  }

  /** An entry is listed exactly when it is an object in some category's `plugins` array. */
  lemma {:induction false} FlattenMembers(cats: seq<Category>, t: Template)
    ensures t in Flatten(cats) <==>
      exists c, j :: 0 <= c < |cats| && cats[c].plugins.Some? && 0 <= j < |cats[c].plugins.value|
                     && cats[c].plugins.value[j] == Object(t)
    decreases |cats|
  {
    if cats != [] {
      FlattenMembers(cats[1..], t);
      if cats[0].plugins.Some? {
        ObjectsMembers(cats[0].plugins.value, t);
      }
      if exists c, j :: 0 <= c < |cats| && cats[c].plugins.Some? && 0 <= j < |cats[c].plugins.value|
                        && cats[c].plugins.value[j] == Object(t) {
        var c, j :| 0 <= c < |cats| && cats[c].plugins.Some? && 0 <= j < |cats[c].plugins.value|
                    && cats[c].plugins.value[j] == Object(t);
        if c > 0 {
          assert cats[1..][c - 1] == cats[c];
        }
      }
    }
  }

  lemma {:induction false} ObjectsMembers(entries: seq<Entry>, t: Template)
    ensures t in Objects(entries) <==> Object(t) in entries
    decreases |entries|
  {
    if entries != [] {
      ObjectsMembers(entries[1..], t);
      assert entries == [entries[0]] + entries[1..];
    }
  }

  /** A template is found exactly when some listed template has that id. */
  lemma FindTemplateIff(cats: seq<Category>, id: string)
    ensures FindTemplate(cats, id).Some? <==> exists t :: t in Flatten(cats) && HasId(t, id)
  {
  }

  /** The plugin name: `title`, else `name`, else `id`, else a fixed fallback; only strings count. */
  function TemplateName(t: Template): string {
    if t.title.Str? then t.title.s
    else if t.name.Str? then t.name.s
    else if t.id.Str? then t.id.s
    else "Plugin from template"
  }

  /**
   * The fallback chain for a template the lookup found: it stops at `id` at the latest,
   * so the fixed fallback never names a plugin made from a template.
   */
  lemma FoundTemplateName(cats: seq<Category>, id: string)
    requires FindTemplate(cats, id).Some?
    ensures var t := FindTemplate(cats, id).value;
      TemplateName(t) == (if t.title.Str? then t.title.s else if t.name.Str? then t.name.s else id)
  {
  }
}
