/**
 * The template store (managers/template_manager.py): named danmaku
 * templates, each a dictionary of display fields, kept in the insertion
 * order of a Python dict.
 */
module TemplateManager {
  import opened Wrappers
  import opened Text
  import opened Subseq
  import opened Json

  /** One `name: template` item of the templates dict. */
  datatype Entry = Entry(name: string, fields: map<string, JsonValue>)

  predicate UniqueNames(t: seq<Entry>) {
    forall i, j :: 0 <= i < j < |t| ==> t[i].name != t[j].name
  }

  function Names(t: seq<Entry>): (r: seq<string>)
    ensures |r| == |t| && forall i :: 0 <= i < |t| ==> r[i] == t[i].name
  {
    if t == [] then [] else [t[0].name] + Names(t[1..])
  }

  /** `templates.get(name)`. */
  function Lookup(t: seq<Entry>, name: string): (r: Option<map<string, JsonValue>>)
    ensures r.None? <==> forall i :: 0 <= i < |t| ==> t[i].name != name
    ensures r.Some? ==> exists i :: 0 <= i < |t| && t[i] == Entry(name, r.value)
  {
    if t == [] then None
    else if t[0].name == name then Some(t[0].fields)
    else
      var r := Lookup(t[1..], name);
      assert r.Some? ==> exists i :: 0 <= i < |t| - 1 && t[1..][i] == Entry(name, r.value);
      r
  }

  /** `templates[name] = fields`: an existing name keeps its place, a new
      one goes last. */
  function Put(t: seq<Entry>, name: string, fields: map<string, JsonValue>): (r: seq<Entry>)
    ensures Names(r) == if Lookup(t, name).Some? then Names(t) else Names(t) + [name]
  {
    if t == [] then [Entry(name, fields)]
    else if t[0].name == name then
      NamesCons(Entry(name, fields), t[1..]);
      NamesCons(t[0], t[1..]);
      [Entry(name, fields)] + t[1..]
    else
      var rest := Put(t[1..], name, fields);
      NamesCons(t[0], rest);
      NamesCons(t[0], t[1..]);
      [t[0]] + rest
  }

  lemma NamesCons(e: Entry, t: seq<Entry>)
    ensures Names([e] + t) == [e.name] + Names(t)
  {
    assert ([e] + t)[1..] == t;
  }

  /** `del templates[name]`. */
  function Delete(t: seq<Entry>, name: string): (r: seq<Entry>)
    ensures |r| <= |t|
  {
    if t == [] then []
    else if t[0].name == name then Delete(t[1..], name)
    else [t[0]] + Delete(t[1..], name)
  }

  /** After a store, the name maps to the new fields and every other name
      to what it mapped to before. */
  lemma {:induction false} PutLookup(t: seq<Entry>, name: string, fields: map<string, JsonValue>, other: string)
    ensures Lookup(Put(t, name, fields), other) == if other == name then Some(fields) else Lookup(t, other)
    decreases |t|
  {
    if t != [] && t[0].name != name {
      PutLookup(t[1..], name, fields, other);
    }
  }

  lemma {:induction false} PutUnique(t: seq<Entry>, name: string, fields: map<string, JsonValue>)
    requires UniqueNames(t)
    ensures UniqueNames(Put(t, name, fields))
  {
    var r := Put(t, name, fields);
    var n, nt := Names(r), Names(t);
    forall i, j | 0 <= i < j < |r|
      ensures r[i].name != r[j].name
    {
      assert n[i] == r[i].name && n[j] == r[j].name;
      if Lookup(t, name).None? && j == |t| {
        assert n[j] == name && n[i] == nt[i] == t[i].name;
      } else {
        assert n[i] == nt[i] && n[j] == nt[j];
      }
    }
  }

  /** After a delete, the name is absent and every other name maps to what
      it mapped to before. */
  lemma {:induction false} DeleteLookup(t: seq<Entry>, name: string, other: string)
    ensures Lookup(Delete(t, name), other) == if other == name then None else Lookup(t, other)
    decreases |t|
  {
    if t != [] {
      DeleteLookup(t[1..], name, other);
    }
  }

  lemma {:induction false} DeleteMembers(t: seq<Entry>, name: string)
    ensures forall e :: e in Delete(t, name) <==> e in t && e.name != name
    decreases |t|
  {
    if t != [] {
      DeleteMembers(t[1..], name);
    }
  }

  lemma DeleteUnique(t: seq<Entry>, name: string)
    requires UniqueNames(t)
    ensures UniqueNames(Delete(t, name))
  {
    DeleteOrder(t, name);
  }

  /** Whether an entry is under a name other than `name`. */
  function OtherName(name: string): Entry -> bool {
    (e: Entry) => e.name != name
  }

  /** Deleting keeps every other entry, in dict order: it is the filter of
      the entries under other names. */
  lemma {:induction false} DeleteIsFilter(t: seq<Entry>, name: string)
    ensures Delete(t, name) == Keep(t, OtherName(name))
    decreases |t|
  {
    if t != [] {
      DeleteIsFilter(t[1..], name);
      assert t == [t[0]] + t[1..];
      KeepAppend([t[0]], t[1..], OtherName(name));
      assert [t[0]][..0] == [];
    }
  }

  /** Deleting keeps names unique and adds no entry. */
  lemma {:induction false} DeleteOrder(t: seq<Entry>, name: string)
    requires UniqueNames(t)
    ensures UniqueNames(Delete(t, name))
    ensures forall e :: e in Delete(t, name) ==> e in t
    decreases |t|
  {
    if t != [] {
      DeleteOrder(t[1..], name);
      DeleteMembers(t[1..], name);
      var rest := Delete(t[1..], name);
      if t[0].name != name {
        forall i | 0 <= i < |rest|
          ensures rest[i].name != t[0].name
        {
          assert rest[i] in t[1..];
        }
      }
    }
  }

  /** `dict.update(imported)`: each imported item stored in turn. */
  function PutAll(t: seq<Entry>, imported: seq<Entry>): seq<Entry>
    decreases |imported|
  {
    if imported == [] then t
    else PutAll(Put(t, imported[0].name, imported[0].fields), imported[1..])
  }

  /** After a merge, an imported name maps to its imported fields and any
      other name keeps its old fields. */
  lemma {:induction false} PutAllLookup(t: seq<Entry>, imported: seq<Entry>, name: string)
    requires UniqueNames(imported)
    ensures Lookup(PutAll(t, imported), name) == if Lookup(imported, name).Some? then Lookup(imported, name) else Lookup(t, name)
    decreases |imported|
  {
    if imported != [] {
      var head := imported[0];
      PutLookup(t, head.name, head.fields, name);
      assert UniqueNames(imported[1..]);
      PutAllLookup(Put(t, head.name, head.fields), imported[1..], name);
      if name == head.name {
        assert Lookup(imported[1..], name).None?;
      }
    }
  }

  lemma {:induction false} PutAllUnique(t: seq<Entry>, imported: seq<Entry>)
    requires UniqueNames(t)
    ensures UniqueNames(PutAll(t, imported))
    decreases |imported|
  {
    if imported != [] {
      PutUnique(t, imported[0].name, imported[0].fields);
      PutAllUnique(Put(t, imported[0].name, imported[0].fields), imported[1..]);
    }
  }

  /** The fields `add_template` stores. */
  function TemplateFields(text: string, color: string := "#FFFFFF", position: string := "scroll",
                          fontSize: int := 24, duration: int := 5, category: string := "custom"): map<string, JsonValue> {
    map["text" := JStr(text), "color" := JStr(color), "position" := JStr(position),
        "font_size" := JInt(fontSize), "duration" := JInt(duration), "category" := JStr(category)]
  }

  /** The fields of a template with the defaults of `add_template`: a white
      scrolling 24-point, five-second template of the "custom" category. */
  predicate DefaultStyled(f: map<string, JsonValue>, text: string) {
    && f.Keys == {"text", "color", "position", "font_size", "duration", "category"}
    && f["text"] == JStr(text)
    && f["color"] == JStr("#FFFFFF")
    && f["position"] == JStr("scroll")
    && f["font_size"] == JInt(24)
    && f["duration"] == JInt(5)
    && f["category"] == JStr("custom")
  }

  /** A template added with only a name and a text has the default style
      and category, and it is what the name then looks up. */
  lemma AddedTemplateDefaults(t: seq<Entry>, name: string, text: string)
    ensures var f := Lookup(Put(t, name, TemplateFields(text)), name);
      f.Some? && DefaultStyled(f.value, text)
  {
    var fields := TemplateFields(text);
    PutLookup(t, name, fields, name);
    DefaultFields(text);
  }

  lemma DefaultFields(text: string)
    ensures DefaultStyled(TemplateFields(text), text)
  {
  }

  /** The eight templates created when there is no template file. */
  function DefaultTemplates(): seq<Entry> {
    [Entry("欢迎", TemplateFields("欢迎来到直播间！", "#00FF00", "top", 26, 6, "greeting")),
     Entry("感谢关注", TemplateFields("感谢关注！", "#FFD700", "scroll", 24, 5, "thanks")),
     Entry("精彩", TemplateFields("太精彩了！", "#FF69B4", "scroll", 24, 5, "reaction")),
     Entry("666", TemplateFields("666666", "#FF0000", "scroll", 28, 4, "reaction")),
     Entry("警告", TemplateFields("⚠️ 请注意内容规范", "#FF8C00", "top", 26, 8, "warning")),
     Entry("活动开始", TemplateFields("🎉 活动开始啦！", "#9370DB", "top", 30, 10, "event")),
     Entry("抽奖", TemplateFields("🎁 抽奖时间到！", "#FF1493", "top", 28, 8, "event")),
     Entry("互动", TemplateFields("大家快来互动吧！", "#00CED1", "scroll", 24, 6, "interaction"))]
  }

  lemma DefaultTemplatesUnique()
    ensures UniqueNames(DefaultTemplates())
  {
    var t := DefaultTemplates();
    DefaultNamesUnique(t[0].fields, t[1].fields, t[2].fields, t[3].fields,
                       t[4].fields, t[5].fields, t[6].fields, t[7].fields);
  }

  /** The eight default names are distinct whatever their fields hold. */
  lemma DefaultNamesUnique(f0: map<string, JsonValue>, f1: map<string, JsonValue>, f2: map<string, JsonValue>,
                           f3: map<string, JsonValue>, f4: map<string, JsonValue>, f5: map<string, JsonValue>,
                           f6: map<string, JsonValue>, f7: map<string, JsonValue>)
    ensures UniqueNames([Entry("欢迎", f0), Entry("感谢关注", f1), Entry("精彩", f2), Entry("666", f3),
                         Entry("警告", f4), Entry("活动开始", f5), Entry("抽奖", f6), Entry("互动", f7)])
  {
    var t := [Entry("欢迎", f0), Entry("感谢关注", f1), Entry("精彩", f2), Entry("666", f3),
              Entry("警告", f4), Entry("活动开始", f5), Entry("抽奖", f6), Entry("互动", f7)];
    var firsts := ['欢', '感', '精', '6', '警', '活', '抽', '互'];
    forall i | 0 <= i < |t|
      ensures |t[i].name| > 0 && t[i].name[0] == firsts[i]
    {
    }
  }

  // ---------------------------------------------------------------------
  // Category listing and search

  /** `template.get(key)` as text: `""` when absent, `None` when the value
      is not a text (the source's `.lower()` would raise). */
  function TextField(fields: map<string, JsonValue>, key: string): Option<string> {
    if key !in fields then Some("")
    else match fields[key]
      case JStr(s) => Some(s)
      case _ => None
  }

  /** The category an entry is listed under by `get_templates_by_category`. */
  predicate InCategory(e: Entry, category: string) {
    "category" in e.fields && e.fields["category"] == JStr(category)
  }

  /** The categories of the templates that have one. */
  ghost function Categories(t: seq<Entry>): set<JsonValue> {
    set e | e in t && "category" in e.fields :: e.fields["category"]
  }

  /** Python's `<` on texts: code-point lexicographic order. */
  predicate LexLess(a: string, b: string)
    decreases |a|
  {
    |b| > 0 && (|a| == 0 || a[0] < b[0] || (a[0] == b[0] && LexLess(a[1..], b[1..])))
  }

  lemma {:induction false} LexIrreflexive(a: string)
    ensures !LexLess(a, a)
    decreases |a|
  {
    if |a| > 0 {
      LexIrreflexive(a[1..]);
    }
  }

  lemma {:induction false} LexTransitive(a: string, b: string, c: string)
    requires LexLess(a, b) && LexLess(b, c)
    ensures LexLess(a, c)
    decreases |a|
  {
    if |a| > 0 && a[0] == b[0] && b[0] == c[0] {
      LexTransitive(a[1..], b[1..], c[1..]);
    }
  }

  lemma {:induction false} LexTotal(a: string, b: string)
    ensures a == b || LexLess(a, b) || LexLess(b, a)
    decreases |a|
  {
    if |a| > 0 && |b| > 0 && a[0] == b[0] {
      LexTotal(a[1..], b[1..]);
      if a[1..] == b[1..] {
        assert a == [a[0]] + a[1..] && b == [b[0]] + b[1..];
      }
    }
  }

  predicate StrictlyIncreasing(s: seq<string>) {
    forall i, j :: 0 <= i < j < |s| ==> LexLess(s[i], s[j])
  }

  /** `x` added to an increasing list of distinct texts, unless present. */
  function InsertLex(s: seq<string>, x: string): seq<string>
    decreases |s|
  {
    if s == [] then [x]
    else if x == s[0] then s
    else if LexLess(x, s[0]) then [x] + s
    else [s[0]] + InsertLex(s[1..], x)
  }

  lemma {:induction false} InsertLexCorrect(s: seq<string>, x: string)
    requires StrictlyIncreasing(s)
    ensures StrictlyIncreasing(InsertLex(s, x))
    ensures forall y :: y in InsertLex(s, x) <==> y in s || y == x
    decreases |s|
  {
    if s != [] && x != s[0] && !LexLess(x, s[0]) {
      assert StrictlyIncreasing(s[1..]);
      InsertLexCorrect(s[1..], x);
      LexTotal(x, s[0]);
      var r := InsertLex(s[1..], x);
      forall i | 0 <= i < |r|
        ensures LexLess(s[0], r[i])
      {
        if r[i] != x {
          assert r[i] in s[1..];
        }
      }
    } else if s != [] && x != s[0] {
      forall i | 0 <= i < |s|
        ensures LexLess(x, s[i])
      {
        if i > 0 {
          LexTransitive(x, s[0], s[i]);
        }
      }
    }
  }

  /** `sorted(set(xs))`. */
  function SortDistinct(xs: seq<string>): (r: seq<string>)
    ensures StrictlyIncreasing(r)
    ensures forall y :: y in r <==> y in xs
  {
    if xs == [] then []
    else
      var init := xs[..|xs| - 1];
      var r := SortDistinct(init);
      InsertLexCorrect(r, xs[|xs| - 1]);
      assert xs == init + [xs[|xs| - 1]];
      InsertLex(r, xs[|xs| - 1])
  }

  /** Whether `search_templates` lists `e` for the lowered keyword `kw`;
      `None` when a field it reads is not a text. */
  function SearchHit(e: Entry, kw: string): Option<bool> {
    if Contains(Lower(e.name), kw) then Some(true)
    else match TextField(e.fields, "text")
      case None => None
      case Some(text) =>
        if Contains(Lower(text), kw) then Some(true)
        else match TextField(e.fields, "category")
          case None => None
          case Some(cat) => Some(Contains(Lower(cat), kw))
  }

  /** `search_templates`: the listed entries in dict order, or `None` when
      reading a field raised. */
  function Search(t: seq<Entry>, kw: string): Option<seq<Entry>> {
    if t == [] then Some([])
    else match Search(t[..|t| - 1], kw)
      case None => None
      case Some(found) =>
        match SearchHit(t[|t| - 1], kw)
        case None => None
        case Some(hit) => Some(found + (if hit then [t[|t| - 1]] else []))
  }

  /** What `search_templates` looks for: the keyword in the name, text or
      category, ignoring ASCII case. */
  predicate Listed(e: Entry, keyword: string) {
    ContainsCI(e.name, keyword)
    || (TextField(e.fields, "text").Some? && ContainsCI(TextField(e.fields, "text").value, keyword))
    || (TextField(e.fields, "category").Some? && ContainsCI(TextField(e.fields, "category").value, keyword))
  }

  /** A successful search lists exactly the templates whose name, text or
      category contains the keyword, ignoring ASCII case. */
  lemma {:induction false} SearchExactly(t: seq<Entry>, keyword: string)
    requires Search(t, Lower(keyword)).Some?
    ensures forall e :: e in Search(t, Lower(keyword)).value <==> e in t && Listed(e, keyword)
    decreases |t|
  {
    var kw := Lower(keyword);
    if t != [] {
      var init, last := t[..|t| - 1], t[|t| - 1];
      assert t == init + [last];
      SearchExactly(init, keyword);
      assert SearchHit(last, kw).Some?;
      forall e | e in t
        ensures SearchHit(e, kw) == Some(Listed(e, keyword))
      {
        if e != last {
          assert e in init;
          SearchHitsDefined(init, kw, e);
        }
      }
    }
  }

  /** A successful search read every field it needed of every entry. */
  lemma {:induction false} SearchHitsDefined(t: seq<Entry>, kw: string, e: Entry)
    requires Search(t, kw).Some? && e in t
    ensures SearchHit(e, kw).Some?
    decreases |t|
  {
    var init, last := t[..|t| - 1], t[|t| - 1];
    assert t == init + [last];
    if e != last {
      SearchHitsDefined(init, kw, e);
    }
  }

  // ---------------------------------------------------------------------

  /** `DanmakuTemplateManager`. */
  class TemplateStore {
    /** `self.templates`, in dict order. */
    var templates: seq<Entry>

    predicate Valid()
      reads this
    {
      UniqueNames(templates)
    }

    /** The templates read from the template file, or the defaults when
        there is none. */
    constructor(stored: Option<seq<Entry>>)
      requires stored.Some? ==> UniqueNames(stored.value)
      ensures Valid()
      ensures templates == if stored.Some? then stored.value else DefaultTemplates()
    {
      if stored.Some? {
        templates := stored.value;
      } else {
        DefaultTemplatesUnique();
        templates := DefaultTemplates();
      }
    }

    /** `get_template`. */
    function GetTemplate(name: string): Option<map<string, JsonValue>>
      reads this
    {
      Lookup(templates, name)
    }

    /** `get_template_names`. */
    function GetTemplateNames(): seq<string>
      reads this
    {
      Names(templates)
    }

    /** `get_templates_by_category`: exactly the templates of the category,
        in dict order. */
    function GetTemplatesByCategory(category: string): (r: seq<Entry>)
      reads this
      ensures forall e :: e in r <==> e in templates && InCategory(e, category)
    {
      KeepExactly(templates, (e: Entry) => InCategory(e, category));
      Keep(templates, (e: Entry) => InCategory(e, category))
    }

    /** `get_categories`: the distinct categories, sorted; `None` when a
        category is not a text. */
    method GetCategories() returns (r: Option<seq<string>>)
      ensures r.Some? ==> StrictlyIncreasing(r.value)
                          && forall c :: c in r.value <==> JStr(c) in Categories(templates)
      ensures r.None? <==> exists e :: e in templates && "category" in e.fields && !e.fields["category"].JStr?
    {
      var found: seq<string> := [];
      var i := 0;
      while i < |templates|
        invariant 0 <= i <= |templates|
        invariant forall c :: c in found <==> JStr(c) in Categories(templates[..i])
        invariant forall k :: 0 <= k < i && "category" in templates[k].fields ==> templates[k].fields["category"].JStr?
      {
        var e := templates[i];
        assert templates[..i + 1] == templates[..i] + [e];
        if "category" in e.fields {
          if !e.fields["category"].JStr? {
            return None;
          }
          var c := e.fields["category"].s;
          if c !in found {
            found := found + [c];
          }
        }
        i := i + 1;
      }
      assert templates[..i] == templates;
      return Some(SortDistinct(found));
    }

    /** `add_template`: store the fields under the name; the style and the
        category have the same defaults as in Python. */
    method AddTemplate(name: string, text: string, color: string := "#FFFFFF", position: string := "scroll",
                       fontSize: int := 24, duration: int := 5, category: string := "custom") returns (ok: bool)
      requires Valid()
      modifies this
      ensures Valid() && ok
      ensures templates == Put(old(templates), name, TemplateFields(text, color, position, fontSize, duration, category))
    {
      PutUnique(templates, name, TemplateFields(text, color, position, fontSize, duration, category));
      templates := Put(templates, name, TemplateFields(text, color, position, fontSize, duration, category));
      ok := true;
    }

    /** `update_template`: merge the given fields into an existing template. */
    method UpdateTemplate(name: string, changes: map<string, JsonValue>) returns (ok: bool)
      requires Valid()
      modifies this
      ensures Valid()
      ensures ok == Lookup(old(templates), name).Some?
      ensures ok ==> templates == Put(old(templates), name, Lookup(old(templates), name).value + changes)
      ensures !ok ==> templates == old(templates)
    {
      var current := Lookup(templates, name);
      if current.None? {
        return false;
      }
      PutUnique(templates, name, current.value + changes);
      templates := Put(templates, name, current.value + changes);
      ok := true;
    }

    /** `delete_template`. */
    method DeleteTemplate(name: string) returns (ok: bool)
      requires Valid()
      modifies this
      ensures Valid()
      ensures ok == Lookup(old(templates), name).Some?
      ensures templates == if ok then Delete(old(templates), name) else old(templates)
    {
      if Lookup(templates, name).None? {
        return false;
      }
      DeleteUnique(templates, name);
      templates := Delete(templates, name);
      ok := true;
    }

    /** `search_templates`. */
    method SearchTemplates(keyword: string) returns (r: Option<seq<Entry>>)
      ensures r == Search(templates, Lower(keyword))
    {
      var kw := Lower(keyword);
      var t := templates;
      var found: seq<Entry> := [];
      var i := 0;
      while i < |t|
        invariant 0 <= i <= |t|
        invariant Search(t[..i], kw) == Some(found)
      {
        var e := t[i];
        assert t[..i + 1][..i] == t[..i] && t[..i + 1][i] == e;
        var hit := SearchHit(e, kw);
        if hit.None? {
          SearchStaysFailed(t, i + 1, kw);
          return None;
        }
        if hit.value {
          found := found + [e];
        } else {
          assert found + [] == found;
        }
        i := i + 1;
      }
      assert t[..i] == t;
      r := Some(found);
    }

    /** `import_templates`: merge into, or replace, the templates. */
    method ImportTemplates(imported: seq<Entry>, merge: bool) returns (ok: bool)
      requires Valid() && UniqueNames(imported)
      modifies this
      ensures Valid() && ok
      ensures templates == if merge then PutAll(old(templates), imported) else imported
    {
      if merge {
        PutAllUnique(templates, imported);
        templates := PutAll(templates, imported);
      } else {
        templates := imported;
      }
      ok := true;
    }
  }

  /** Once reading a field has failed, the search of any longer prefix fails. */
  lemma {:induction false} SearchStaysFailed(t: seq<Entry>, k: nat, kw: string)
    requires k <= |t| && Search(t[..k], kw).None?
    ensures Search(t, kw).None?
    decreases |t| - k
  {
    if k < |t| {
      assert t[..k + 1][..k] == t[..k];
      SearchStaysFailed(t, k + 1, kw);
    } else {
      assert t[..k] == t;
    }
  }
}
