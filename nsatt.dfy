/** The desktop application's registries: the theme manager, the widget
    manager with its prioritised start-up, the plugin manager (the record of
    known plugins, the plugin menu built from the plugin directory and its
    clean-up), and the navigation history of the main window. The file
    system is an input: the theme and widget files as lists, the plugin
    directory as a tree. Dialogs are inputs too: their answer is a
    parameter. */
module Nsatt {
  import opened Strings

  // ---------------------------------------------------------------------
  // Python dictionaries

  /** A Python dict with string keys: its keys in insertion order, and its
      entries. */
  datatype Dict<V> = Dict(keys: seq<string>, entries: map<string, V>)

  /** The keys are distinct and are exactly the keys of the entries. */
  predicate WellFormed<V>(d: Dict<V>) {
    (forall i, j :: 0 <= i < j < |d.keys| ==> d.keys[i] != d.keys[j])
    && d.entries.Keys == set k | k in d.keys
  }

  function EmptyDict<V>(): (d: Dict<V>)
    ensures WellFormed(d) && d.entries == map[]
  {
    Dict([], map[])
  }

  /** `d[k] = v`: a new key goes last, an existing key keeps its place. */
  function Put<V>(d: Dict<V>, k: string, v: V): (r: Dict<V>)
    requires WellFormed(d)
    ensures WellFormed(r) && k in r.entries && r.entries[k] == v
    ensures forall j :: j != k ==> (j in r.entries <==> j in d.entries)
    ensures forall j :: j != k && j in d.entries ==> r.entries[j] == d.entries[j]
  {
    Dict(if k in d.entries then d.keys else d.keys + [k], d.entries[k := v])
  }

  /** Storing a key twice keeps only the second value. */
  lemma PutAgain<V>(d: Dict<V>, k: string, v: V, w: V)
    requires WellFormed(d)
    ensures Put(Put(d, k, v), k, w) == Put(d, k, w)
  {
    assert d.entries[k := v][k := w] == d.entries[k := w];
  }

  // ---------------------------------------------------------------------
  // ThemeManager

  type Theme = map<string, string>

  /** The theme built into the theme manager. */
  const DefaultTheme: Theme := map[
    "background" := "#1E1E1E",
    "secondary" := "#2C2C2C",
    "accent" := "#3A3A3A",
    "text" := "#FFFFFF",
    "text_background" := "#2C2C2C",
    "button_background" := "#3A3A3A",
    "button_hover" := "#505050",
    "close_button_background" := "#E81123",
    "close_button_hover" := "#F1707A",
    "border_color" := "#5A5A5A",
    "border_width" := "1px",
    "border_radius" := "4px",
    "padding" := "8px",
    "spacing" := "10px",
    "checkbox_text_color" := "#FFFFFF",
    "checkbox_background" := "#2C2C2C",
    "label_color" := "#FFFFFF",
    "card_hover" := "#3A3A3A"
  ]

  /** A file of the theme directory; `content` is `None` when it cannot be
      read or is not valid JSON. */
  datatype ThemeFile = ThemeFile(fileName: string, content: Option<Theme>)

  predicate Loadable(f: ThemeFile) {
    EndsWith(f.fileName, ".json") && f.content.Some?
  }

  /** The theme name of a `.json` file: its name without the extension. */
  function ThemeName(f: ThemeFile): string
    requires Loadable(f)
  {
    f.fileName[..|f.fileName| - 5]
  }

  /** The themes `load_themes` reads, in directory order. */
  function ThemesOf(files: seq<ThemeFile>): (r: Dict<Theme>)
    ensures WellFormed(r)
    decreases |files|
  {
    if files == [] then EmptyDict()
    else
      var d := ThemesOf(files[..|files| - 1]);
      var f := files[|files| - 1];
      if Loadable(f) then Put(d, ThemeName(f), f.content.value) else d
  }

  /** A theme is loaded exactly when some readable `.json` file carries its
      name, and it is the content of such a file. */
  lemma {:induction false} ThemesOfMembers(files: seq<ThemeFile>, name: string)
    ensures name in ThemesOf(files).entries <==> exists i :: 0 <= i < |files| && Loadable(files[i]) && ThemeName(files[i]) == name
    ensures name in ThemesOf(files).entries ==>
      exists i :: 0 <= i < |files| && Loadable(files[i]) && ThemeName(files[i]) == name
                  && ThemesOf(files).entries[name] == files[i].content.value
    decreases |files|
  {
    if files != [] {
      var n := |files| - 1;
      var init := files[..n];
      ThemesOfMembers(init, name);
      var f := files[n];
      var d := ThemesOf(init);
      assert ThemesOf(files) == if Loadable(f) then Put(d, ThemeName(f), f.content.value) else d;
      if Loadable(f) && ThemeName(f) == name {
        assert ThemesOf(files).entries[name] == files[n].content.value;
      } else {
        assert (name in ThemesOf(files).entries) == (name in d.entries);
        assert name in d.entries ==> ThemesOf(files).entries[name] == d.entries[name];
        assert forall i :: 0 <= i < n ==> init[i] == files[i];
        if name in d.entries {
          var i :| 0 <= i < n && Loadable(init[i]) && ThemeName(init[i]) == name
                   && d.entries[name] == init[i].content.value;
          assert files[i] == init[i];
        } else {
          assert forall i :: 0 <= i < n ==> !(Loadable(files[i]) && ThemeName(files[i]) == name);
        }
      }
    }
  }

  /** `load_themes`. */
  method LoadThemes(files: seq<ThemeFile>) returns (themes: Dict<Theme>)
    ensures themes == ThemesOf(files)
  {
    themes := EmptyDict();
    for i := 0 to |files|
      invariant themes == ThemesOf(files[..i])
    {
      assert files[..i + 1][..i] == files[..i];
      var f := files[i];
      if EndsWith(f.fileName, ".json") && f.content.Some? {
        themes := Put(themes, f.fileName[..|f.fileName| - 5], f.content.value);
      }
    }
    assert files[..|files|] == files;
  }

  class ThemeManager {
    var themes: Dict<Theme>
    const defaultTheme: Theme

    /** The default theme is always among the themes. */
    predicate Valid()
      reads this
    {
      WellFormed(themes) && "default" in themes.entries && themes.entries["default"] == defaultTheme
    }

    /** The themes of the theme directory, with `default` set to the
        built-in theme. */
    constructor(files: seq<ThemeFile>)
      ensures Valid() && defaultTheme == DefaultTheme
      ensures themes == Put(ThemesOf(files), "default", DefaultTheme)
    {
      defaultTheme := DefaultTheme;
      var loaded := LoadThemes(files);
      themes := Put(loaded, "default", DefaultTheme);
    }

    /** `get_theme`. */
    function GetTheme(name: string): Theme
      reads this
    {
      if name in themes.entries then themes.entries[name] else defaultTheme
    }

    /** `get_theme_names`. */
    function GetThemeNames(): (names: seq<string>)
      reads this
      ensures "default" in names
      ensures forall n :: n in names <==> n in themes.keys || n == "default"
    {
      if "default" in themes.keys then themes.keys else themes.keys + ["default"]
    }
  }

  /** The theme a name selects: `default` is always the built-in theme, a
      name some theme file carries is that file's theme, and any other name
      falls back to the built-in theme. */
  lemma ThemeLookup(tm: ThemeManager, files: seq<ThemeFile>, name: string)
    requires tm.themes == Put(ThemesOf(files), "default", DefaultTheme) && tm.defaultTheme == DefaultTheme
    ensures name == "default" ==> tm.GetTheme(name) == DefaultTheme
    ensures name != "default" && name in ThemesOf(files).entries ==> tm.GetTheme(name) == ThemesOf(files).entries[name]
    ensures (name == "default" || name !in ThemesOf(files).entries) ==> tm.GetTheme(name) == DefaultTheme
  {
  }

  /** The theme names are the loaded names, each once, with `default`
      among them; nothing needs appending. */
  lemma ThemeNamesDistinct(tm: ThemeManager)
    requires tm.Valid()
    ensures tm.GetThemeNames() == tm.themes.keys
    ensures forall i, j :: 0 <= i < j < |tm.GetThemeNames()| ==> tm.GetThemeNames()[i] != tm.GetThemeNames()[j]
  {
  }

  // ---------------------------------------------------------------------
  // WidgetManager

  /** What a widget's `initialize` does. */
  datatype InitOutcome = Initialized | InitFailed | InitRaised

  datatype Widget = Widget(hasInitialize: bool, outcome: InitOutcome)

  /** A file of the widget directory; `widget` is the first widget class of
      the module, `None` when the module fails to load or has none. */
  datatype WidgetFile = WidgetFile(fileName: string, widget: Option<Widget>)

  predicate IsWidgetModule(f: WidgetFile) {
    EndsWith(f.fileName, ".py") && !StartsWith(f.fileName, "__") && f.widget.Some?
  }

  function ModuleName(f: WidgetFile): string
    requires IsWidgetModule(f)
  {
    f.fileName[..|f.fileName| - 3]
  }

  /** The priority `_load_widgets` gives a widget module: the login widget
      first. */
  function PriorityOf(moduleName: string): int {
    if moduleName == "login" then 0 else 100
  }

  /** The priorities after registering the widget modules of `files`. */
  function PrioritiesAfter(d: Dict<int>, files: seq<WidgetFile>): (r: Dict<int>)
    requires WellFormed(d)
    ensures WellFormed(r)
    decreases |files|
  {
    if files == [] then d
    else
      var p := PrioritiesAfter(d, files[..|files| - 1]);
      var f := files[|files| - 1];
      if IsWidgetModule(f) then Put(p, ModuleName(f), PriorityOf(ModuleName(f))) else p
  }

  function WidgetsAfter(w: map<string, Widget>, files: seq<WidgetFile>): map<string, Widget>
    decreases |files|
  {
    if files == [] then w
    else
      var m := WidgetsAfter(w, files[..|files| - 1]);
      var f := files[|files| - 1];
      if IsWidgetModule(f) then m[ModuleName(f) := f.widget.value] else m
  }

  /** Loading keeps priorities and widgets keyed alike, and every loaded
      module has the login-first priority. */
  lemma {:induction false} LoadedPriorities(d: Dict<int>, w: map<string, Widget>, files: seq<WidgetFile>)
    requires WellFormed(d) && d.entries.Keys == w.Keys
    ensures PrioritiesAfter(d, files).entries.Keys == WidgetsAfter(w, files).Keys
    ensures forall k :: k in PrioritiesAfter(d, files).entries && k !in d.entries ==>
      PrioritiesAfter(d, files).entries[k] == PriorityOf(k)
    ensures forall k :: k in PrioritiesAfter(d, files).entries && k !in d.entries ==>
      exists i :: 0 <= i < |files| && IsWidgetModule(files[i]) && ModuleName(files[i]) == k
    decreases |files|
  {
    if files != [] {
      var n := |files| - 1;
      LoadedPriorities(d, w, files[..n]);
      assert forall i :: 0 <= i < n ==> files[..n][i] == files[i];
      var p := PrioritiesAfter(d, files[..n]);
      var f := files[n];
      if IsWidgetModule(f) {
        forall k | k in PrioritiesAfter(d, files).entries && k !in d.entries
          ensures PrioritiesAfter(d, files).entries[k] == PriorityOf(k)
        {
          if k != ModuleName(f) {
            assert k in p.entries;
          }
        }
      }
    }
  }

  /** `sorted(priorities.items(), key=priority)`: a stable sort of the
      names by priority. */
  function ByPriority(names: seq<string>, pr: map<string, int>): (r: seq<string>)
    requires forall n :: n in names ==> n in pr
    ensures multiset(r) == multiset(names) && forall m :: m in r ==> m in pr
    decreases |names|
  {
    if names == [] then []
    else
      assert names == names[..|names| - 1] + [names[|names| - 1]];
      InsertByPriority(ByPriority(names[..|names| - 1], pr), names[|names| - 1], pr)
  }

  /** Inserts `n` after every name whose priority is not greater. */
  function InsertByPriority(s: seq<string>, n: string, pr: map<string, int>): (r: seq<string>)
    requires n in pr && forall m :: m in s ==> m in pr
    ensures multiset(r) == multiset(s) + multiset{n} && forall m :: m in r ==> m in pr
    decreases |s|
  {
    if s == [] || pr[s[|s| - 1]] <= pr[n] then s + [n]
    else
      assert s == s[..|s| - 1] + [s[|s| - 1]];
      InsertByPriority(s[..|s| - 1], n, pr) + [s[|s| - 1]]
  }

  predicate Ascending(s: seq<string>, pr: map<string, int>)
    requires forall m :: m in s ==> m in pr
  {
    forall i, j :: 0 <= i < j < |s| ==> pr[s[i]] <= pr[s[j]]
  }

  lemma {:induction false} InsertAscending(s: seq<string>, n: string, pr: map<string, int>)
    requires n in pr && (forall m :: m in s ==> m in pr) && Ascending(s, pr)
    ensures Ascending(InsertByPriority(s, n, pr), pr)
    decreases |s|
  {
    if s != [] && pr[s[|s| - 1]] > pr[n] {
      var init := s[..|s| - 1];
      assert forall i :: 0 <= i < |init| ==> init[i] == s[i];
      InsertAscending(init, n, pr);
      var t := InsertByPriority(init, n, pr);
      var r := t + [s[|s| - 1]];
      forall i | 0 <= i < |t|
        ensures pr[t[i]] <= pr[s[|s| - 1]]
      {
        assert t[i] in multiset(t);
        assert t[i] in multiset(init) || t[i] == n;
        if t[i] != n {
          assert t[i] in init;
        }
      }
      assert forall i :: 0 <= i < |t| ==> r[i] == t[i];
    }
  }

  /** The start-up order is ascending in priority. */
  lemma {:induction false} ByPriorityAscending(names: seq<string>, pr: map<string, int>)
    requires forall n :: n in names ==> n in pr
    ensures Ascending(ByPriority(names, pr), pr)
    decreases |names|
  {
    if names != [] {
      var init := names[..|names| - 1];
      assert forall m :: m in init ==> m in names;
      ByPriorityAscending(init, pr);
      var s := ByPriority(init, pr);
      forall m | m in s ensures m in pr {
        assert m in multiset(s);
      }
      InsertAscending(s, names[|names| - 1], pr);
    }
  }

  /** With the login widget at priority 0 and every other widget at 100,
      the login widget starts first. */
  lemma LoginFirst(names: seq<string>, pr: map<string, int>)
    requires forall n :: n in names ==> n in pr && pr[n] == PriorityOf(n)
    requires "login" in names
    ensures |ByPriority(names, pr)| > 0 && ByPriority(names, pr)[0] == "login"
  {
    var r := ByPriority(names, pr);
    ByPriorityAscending(names, pr);
    assert "login" in multiset(r);
    var k :| 0 <= k < |r| && r[k] == "login";
    assert r[0] in multiset(names);
    if k > 0 {
      assert pr[r[0]] <= pr[r[k]];
    }
  }

  /** What `initialize_all` does: whether it succeeded, and the widgets whose
      `initialize` it called, in order. */
  datatype InitRun = InitRun(ok: bool, called: seq<string>)

  predicate Initializes(widgets: map<string, Widget>, n: string) {
    n in widgets && widgets[n].hasInitialize
  }

  function RunInit(order: seq<string>, widgets: map<string, Widget>): InitRun
    decreases |order|
  {
    if order == [] then InitRun(true, [])
    else if !Initializes(widgets, order[0]) then RunInit(order[1..], widgets)
    else if widgets[order[0]].outcome != Initialized then InitRun(false, [order[0]])
    else
      var rest := RunInit(order[1..], widgets);
      InitRun(rest.ok, [order[0]] + rest.called)
  }

  /** Start-up succeeds exactly when every widget that has `initialize`
      initialises; it calls them in order and stops at the first failure. */
  lemma {:induction false} RunInitMeans(order: seq<string>, widgets: map<string, Widget>)
    ensures var r := RunInit(order, widgets);
      (r.ok <==> forall i :: 0 <= i < |order| && Initializes(widgets, order[i]) ==> widgets[order[i]].outcome == Initialized)
      && (forall i :: 0 <= i < |r.called| ==> r.called[i] in order && Initializes(widgets, r.called[i]))
      && (!r.ok ==> |r.called| > 0 && widgets[r.called[|r.called| - 1]].outcome != Initialized
                    && forall i :: 0 <= i < |r.called| - 1 ==> widgets[r.called[i]].outcome == Initialized)
      && (r.ok ==> forall i :: 0 <= i < |r.called| ==> widgets[r.called[i]].outcome == Initialized)
    decreases |order|
  {
    if order != [] {
      RunInitMeans(order[1..], widgets);
      assert forall i :: 1 <= i < |order| ==> order[1..][i - 1] == order[i];
      var r := RunInit(order, widgets);
      var rest := RunInit(order[1..], widgets);
      if Initializes(widgets, order[0]) && widgets[order[0]].outcome == Initialized {
        assert r.called == [order[0]] + rest.called;
        assert forall i :: 1 <= i < |r.called| ==> r.called[i] == rest.called[i - 1];
      }
    }
  }

  class WidgetManager {
    var widgets: map<string, Widget>
    var priorities: Dict<int>

    predicate Valid()
      reads this
    {
      WellFormed(priorities) && priorities.entries.Keys == widgets.Keys
    }

    /** The widget modules of the widget directory, registered in directory
        order. */
    constructor(files: seq<WidgetFile>)
      ensures Valid()
      ensures priorities == PrioritiesAfter(EmptyDict(), files) && widgets == WidgetsAfter(map[], files)
    {
      widgets := map[];
      priorities := EmptyDict();
      new;
      LoadWidgets(files);
    }

    /** `register`. */
    method Register(name: string, widget: Widget, priority: int)
      requires Valid()
      modifies this
      ensures Valid()
      ensures widgets == old(widgets)[name := widget] && priorities == Put(old(priorities), name, priority)
    {
      widgets := widgets[name := widget];
      priorities := Put(priorities, name, priority);
    }

    /** `_load_widgets`. */
    method LoadWidgets(files: seq<WidgetFile>)
      requires Valid()
      modifies this
      ensures Valid()
      ensures priorities == PrioritiesAfter(old(priorities), files) && widgets == WidgetsAfter(old(widgets), files)
    {
      for i := 0 to |files|
        invariant Valid()
        invariant priorities == PrioritiesAfter(old(priorities), files[..i])
        invariant widgets == WidgetsAfter(old(widgets), files[..i])
      {
        assert files[..i + 1][..i] == files[..i];
        var f := files[i];
        if EndsWith(f.fileName, ".py") && !StartsWith(f.fileName, "__") && f.widget.Some? {
          var name := f.fileName[..|f.fileName| - 3];
          Register(name, f.widget.value, if name == "login" then 0 else 100);
        }
      }
      assert files[..|files|] == files;
    }

    /** `initialize_all`: the widgets in priority order, stopping with
        `false` at the first whose `initialize` fails or raises. */
    method InitializeAll() returns (ok: bool, called: seq<string>)
      requires Valid()
      ensures InitRun(ok, called) == RunInit(ByPriority(priorities.keys, priorities.entries), widgets)
    {
      var order := ByPriority(priorities.keys, priorities.entries);
      called := [];
      var i := 0;
      while i < |order|
        invariant 0 <= i <= |order|
        invariant RunInit(order, widgets) == InitRun(RunInit(order[i..], widgets).ok, called + RunInit(order[i..], widgets).called)
      {
        assert order[i..][1..] == order[i + 1..];
        var name := order[i];
        if name in widgets && widgets[name].hasInitialize {
          if widgets[name].outcome != Initialized {
            called := called + [name];
            return false, called;
          }
          assert RunInit(order[i..], widgets).called == [name] + RunInit(order[i + 1..], widgets).called;
          called := called + [name];
        }
        i := i + 1;
      }
      ok := true;
    }
  }

  // ---------------------------------------------------------------------
  // PluginManager

  /** The record `known_plugins` keeps per plugin. */
  datatype Known = Known(enabled: bool, firstSeen: string, requirementsMet: bool)

  /** A plugin module that loaded and has a `Plugin` class: the class's
      `NAME`, if it has one, and the module's `plugin_image_value`, if any. */
  datatype PluginModule = PluginModule(nameAttr: Option<string>, image: Option<string>)

  /** An entry of the plugin directory. `hasIcon` says whether a directory
      holds `<name>_icon.png`; a file's `loaded` is `None` when it fails to
      load or has no `Plugin` class. */
  datatype Node = DirNode(name: string, hasIcon: bool, children: seq<Node>)
                | FileNode(name: string, loaded: Option<PluginModule>)

  /** An entry of the plugin menu: a plain submenu, a submenu with its icon,
      or a plugin with its optional image. */
  datatype Entry = Folder(menu: map<string, Entry>)
                 | IconFolder(menu: map<string, Entry>, icon: string)
                 | PluginItem(plugin: string, image: Option<string>)

  type Menu = map<string, Entry>

  const PluginDir: string := "/nsatt/storage/plugins"

  predicate IsPluginFile(n: Node) {
    n.FileNode? && EndsWith(n.name, ".py") && !StartsWith(n.name, "__") && n.loaded.Some?
  }

  /** The plugin's name: its `NAME`, else the file name without `.py`. */
  function PluginName(n: Node): string
    requires IsPluginFile(n)
  {
    if n.loaded.value.nameAttr.Some? then n.loaded.value.nameAttr.value else n.name[..|n.name| - 3]
  }

  /** The record of a newly seen plugin: disabled and with its requirements
      unmet, unless the new-plugin dialog enabled it, which sets both. */
  function NewRecord(enabledByDialog: bool, now: string): Known {
    Known(enabledByDialog, now, enabledByDialog)
  }

  /** The state of a directory walk: the menu built so far, the known
      plugins and the loaded plugins. */
  datatype Loading = Loading(menu: Menu, known: Dict<Known>, plugins: Dict<PluginModule>)

  predicate LoadingOk(st: Loading) {
    WellFormed(st.known) && WellFormed(st.plugins)
  }

  /** `_load_plugin` for a plugin named `name`: the plugin is stored, a new
      one is recorded, and it joins the menu when it is enabled and its
      requirements are met. `dialog(name)` is the new-plugin dialog's
      answer. */
  function LoadPlugin(name: string, m: PluginModule, st: Loading, dialog: string -> bool, now: string): (r: Loading)
    requires LoadingOk(st)
    ensures LoadingOk(r)
  {
    var plugins := Put(st.plugins, name, m);
    var known := if name in st.known.entries then st.known else Put(st.known, name, NewRecord(dialog(name), now));
    var k := known.entries[name];
    Loading(if k.enabled && k.requirementsMet then st.menu[name := PluginItem(name, m.image)] else st.menu, known, plugins)
  }

  /** `_load_dir` over the entries `items` of the directory `path`. */
  function LoadItems(path: string, items: seq<Node>, st: Loading, dialog: string -> bool, now: string): (r: Loading)
    requires LoadingOk(st)
    ensures LoadingOk(r)
    decreases items
  {
    if items == [] then st
    else
      var prev := LoadItems(path, items[..|items| - 1], st, dialog, now);
      var item := items[|items| - 1];
      if item.name == "__pycache__" then prev
      else if item.DirNode? then
        var itemPath := path + "/" + item.name;
        var sub := LoadItems(itemPath, item.children, Loading(map[], prev.known, prev.plugins), dialog, now);
        var entry := if item.hasIcon then IconFolder(sub.menu, itemPath + "/" + item.name + "_icon.png") else Folder(sub.menu);
        Loading(prev.menu[item.name := entry], sub.known, sub.plugins)
      else if IsPluginFile(item) then LoadPlugin(PluginName(item), item.loaded.value, prev, dialog, now)
      else prev
  }

  /** Existing records are kept as they are. */
  predicate Extends(a: Dict<Known>, b: Dict<Known>) {
    forall k :: k in a.entries ==> k in b.entries && b.entries[k] == a.entries[k]
  }

  /** Records `b` has and `a` lacks are new-plugin records. */
  predicate NewRecords(a: Dict<Known>, b: Dict<Known>, dialog: string -> bool, now: string) {
    forall k :: k in b.entries && k !in a.entries ==> b.entries[k] == NewRecord(dialog(k), now)
  }

  predicate PluginsKnown(st: Loading) {
    forall k :: k in st.plugins.entries ==> k in st.known.entries
  }

  /** Loading a directory never changes the record of a plugin already
      known, records every newly seen plugin as new, and leaves every
      loaded plugin known. */
  lemma {:induction false} LoadItemsRecords(path: string, items: seq<Node>, st: Loading, dialog: string -> bool, now: string)
    requires LoadingOk(st)
    ensures var r := LoadItems(path, items, st, dialog, now);
      Extends(st.known, r.known) && NewRecords(st.known, r.known, dialog, now)
      && (PluginsKnown(st) ==> PluginsKnown(r))
    decreases items
  {
    if items != [] {
      var prev := LoadItems(path, items[..|items| - 1], st, dialog, now);
      LoadItemsRecords(path, items[..|items| - 1], st, dialog, now);
      var item := items[|items| - 1];
      if item.name != "__pycache__" && item.DirNode? {
        var itemPath := path + "/" + item.name;
        LoadItemsRecords(itemPath, item.children, Loading(map[], prev.known, prev.plugins), dialog, now);
      }
    }
  }

  /** Every plugin the entry shows is enabled with its requirements met. */
  predicate ShowsEnabled(e: Entry, known: Dict<Known>)
    decreases e
  {
    match e
    case PluginItem(p, _) => p in known.entries && known.entries[p].enabled && known.entries[p].requirementsMet
    case Folder(m) => forall k :: k in m ==> ShowsEnabled(m[k], known)
    case IconFolder(m, _) => forall k :: k in m ==> ShowsEnabled(m[k], known)
  }

  lemma {:induction false} ShowsEnabledExtends(e: Entry, a: Dict<Known>, b: Dict<Known>)
    requires Extends(a, b) && ShowsEnabled(e, a)
    ensures ShowsEnabled(e, b)
    decreases e
  {
    if !e.PluginItem? {
      forall k | k in e.menu
        ensures ShowsEnabled(e.menu[k], b)
      {
        ShowsEnabledExtends(e.menu[k], a, b);
      }
    }
  }

  /** The menu shows only plugins that are enabled with their requirements
      met. */
  lemma {:induction false} LoadItemsShowsEnabled(path: string, items: seq<Node>, st: Loading, dialog: string -> bool, now: string)
    requires LoadingOk(st) && ShowsEnabled(Folder(st.menu), st.known)
    ensures var r := LoadItems(path, items, st, dialog, now);
      ShowsEnabled(Folder(r.menu), r.known)
    decreases items
  {
    if items != [] {
      var prev := LoadItems(path, items[..|items| - 1], st, dialog, now);
      LoadItemsShowsEnabled(path, items[..|items| - 1], st, dialog, now);
      var item := items[|items| - 1];
      var r := LoadItems(path, items, st, dialog, now);
      if item.name == "__pycache__" {
      } else if item.DirNode? {
        var itemPath := path + "/" + item.name;
        var start := Loading(map[], prev.known, prev.plugins);
        var sub := LoadItems(itemPath, item.children, start, dialog, now);
        LoadItemsShowsEnabled(itemPath, item.children, start, dialog, now);
        LoadItemsRecords(itemPath, item.children, start, dialog, now);
        ShowsEnabledExtends(Folder(prev.menu), prev.known, sub.known);
        var entry := if item.hasIcon then IconFolder(sub.menu, itemPath + "/" + item.name + "_icon.png") else Folder(sub.menu);
        assert ShowsEnabled(entry, sub.known);
        assert r.menu == prev.menu[item.name := entry];
      } else if IsPluginFile(item) {
        var name := PluginName(item);
        assert Extends(prev.known, r.known);
        ShowsEnabledExtends(Folder(prev.menu), prev.known, r.known);
      }
    }
  }

  // The clean-up of the menu

  /** Whether `_clean_empty_dirs` keeps a cleaned entry: every entry but an
      empty plain submenu. */
  predicate Kept(e: Entry) {
    !(e.Folder? && e.menu == map[])
  }

  /** The clean-up as evidently intended: submenus are cleaned first, then
      the plain submenus left empty are removed. */
  function Clean(e: Entry): (r: Entry)
    ensures r.Folder? == e.Folder? && r.IconFolder? == e.IconFolder?
    ensures e.PluginItem? ==> r == e
    ensures e.IconFolder? ==> r.icon == e.icon
    ensures !e.PluginItem? ==> r.menu.Keys <= e.menu.Keys
    decreases e
  {
    match e
    case PluginItem(_, _) => e
    case Folder(m) => Folder(map k | k in m && Kept(Clean(m[k])) :: Clean(m[k]))
    case IconFolder(m, icon) => IconFolder(map k | k in m && Kept(Clean(m[k])) :: Clean(m[k]), icon)
  }

  /** A cleaned menu keeps every plugin and every submenu with an icon, and
      keeps a plain submenu exactly when something is left in it. */
  lemma CleanKeeps(e: Entry, k: string)
    requires !e.PluginItem? && k in e.menu
    ensures e.menu[k].PluginItem? ==> k in Clean(e).menu && Clean(e).menu[k] == e.menu[k]
    ensures e.menu[k].IconFolder? ==> k in Clean(e).menu
    ensures e.menu[k].Folder? ==> (k in Clean(e).menu <==> Clean(e.menu[k]).menu != map[])
  {
  }

  /** No plain submenu anywhere is empty. */
  predicate NoEmptyFolder(e: Entry)
    decreases e
  {
    !e.PluginItem? ==> forall k :: k in e.menu ==> Kept(e.menu[k]) && NoEmptyFolder(e.menu[k])
  }

  /** After the clean-up no empty plain submenu is left, at any depth. */
  lemma {:induction false} CleanLeavesNoEmptyFolder(e: Entry)
    ensures NoEmptyFolder(Clean(e))
    decreases e
  {
    if !e.PluginItem? {
      forall k | k in Clean(e).menu
        ensures Kept(Clean(e).menu[k]) && NoEmptyFolder(Clean(e).menu[k])
      {
        CleanLeavesNoEmptyFolder(e.menu[k]);
      }
    }
  }

  /** A menu without empty plain submenus is left as it is. */
  lemma {:induction false} CleanFixesClean(e: Entry)
    requires NoEmptyFolder(e)
    ensures Clean(e) == e
    decreases e
  {
    if !e.PluginItem? {
      forall k | k in e.menu
        ensures Clean(e.menu[k]) == e.menu[k]
      {
        CleanFixesClean(e.menu[k]);
      }
      assert Clean(e).menu == e.menu;
    }
  }

  /** Cleaning twice is cleaning once. */
  lemma CleanIdempotent(e: Entry)
    ensures Clean(Clean(e)) == Clean(e)
  {
    CleanLeavesNoEmptyFolder(e);
    CleanFixesClean(Clean(e));
  }

  // The clean-up as written, on the dictionaries themselves

  /** The menu as Python holds it: a dict, or a value that is not a dict
      (a plugin object, standing here as its name, or an image path). */
  datatype Value = DictValue(entries: map<string, Value>) | Scalar(text: string)

  /** The dict of a menu: one value per entry. */
  function MenuValue(m: Menu): (v: Value)
    ensures v.DictValue? && v.entries.Keys == m.Keys
    ensures forall k :: k in m ==> v.entries[k] == ValueOf(m[k])
  {
    ValueOf(Folder(m))
  }

  /** The value `_load_dir` and `_load_plugin` store for an entry: a plain
      submenu is the dict of its entries, a submenu with an icon is
      `{'submenu': ..., 'image': ...}`, a plugin is `{'plugin': ...}` with
      its `'image'` when it has one. */
  function ValueOf(e: Entry): (v: Value)
    ensures v.DictValue?
    ensures e.Folder? ==> v.entries.Keys == e.menu.Keys
    ensures e.IconFolder? ==> v.entries.Keys == {"submenu", "image"}
    ensures e.PluginItem? ==> "plugin" in v.entries && "submenu" !in v.entries
    decreases e
  {
    match e
    case Folder(m) => DictValue(map k | k in m :: ValueOf(m[k]))
    case IconFolder(m, icon) => DictValue(map["submenu" := DictValue(map k | k in m :: ValueOf(m[k])), "image" := Scalar(icon)])
    case PluginItem(p, img) =>
      DictValue(if img.Some? then map["plugin" := Scalar(p), "image" := Scalar(img.value)] else map["plugin" := Scalar(p)])
  }

  /** `_clean_empty_dirs(menu)` as written: every dict value has its
      submenu, `value.get('submenu', value)`, cleaned in place, and the
      values whose submenu is then empty and which have no key other than
      'image' are deleted. (A 'submenu' key always holds a dict in the
      menus the loader builds; a non-dict is left as it is.) */
  function CleanedDict(v: Value): (r: Value)
    ensures r.DictValue? == v.DictValue?
    ensures v.DictValue? ==> r.entries.Keys <= v.entries.Keys
    ensures v.Scalar? ==> r == v
    decreases v, 0
  {
    match v
    case Scalar(_) => v
    case DictValue(d) => DictValue(map k | k in d && !Dropped(d[k]) :: AfterClean(d[k]))
  }

  /** A value of the dict once its submenu was cleaned in place: a dict with
      a 'submenu' key has that entry cleaned and keeps its other keys;
      any other dict is cleaned itself. */
  function AfterClean(v: Value): (r: Value)
    ensures r.DictValue? == v.DictValue?
    ensures v.DictValue? && "submenu" in v.entries ==> r.entries.Keys == v.entries.Keys
    decreases v, 1
  {
    match v
    case Scalar(_) => v
    case DictValue(d) => if "submenu" in d then DictValue(d["submenu" := CleanedDict(d["submenu"])]) else CleanedDict(v)
  }

  /** Whether the key of `v` goes into `empty_keys`: `v` is a dict without
      a 'submenu' key (so its submenu is itself) and nothing is left in it. */
  predicate Dropped(v: Value)
    decreases v, 2
  {
    v.DictValue? && "submenu" !in v.entries && CleanedDict(v).entries == map[]
  }

  /** `a` is `b` with some dict entries removed, at any depth. */
  predicate Within(a: Value, b: Value)
    decreases b
  {
    match b
    case Scalar(_) => a == b
    case DictValue(d) => a.DictValue? && a.entries.Keys <= d.Keys && forall k :: k in a.entries ==> Within(a.entries[k], d[k])
  }

  lemma {:induction false} WithinSelf(v: Value)
    ensures Within(v, v)
    decreases v
  {
    if v.DictValue? {
      forall k | k in v.entries
        ensures Within(v.entries[k], v.entries[k])
      {
        WithinSelf(v.entries[k]);
      }
    }
  }

  /** The clean-up only deletes entries: nothing is added or altered. */
  lemma {:induction false} CleanedWithin(v: Value)
    ensures Within(CleanedDict(v), v) && Within(AfterClean(v), v)
    decreases v
  {
    if v.DictValue? {
      var d := v.entries;
      forall k | k in CleanedDict(v).entries
        ensures Within(CleanedDict(v).entries[k], d[k])
      {
        CleanedWithin(d[k]);
      }
      if "submenu" in d {
        var r := AfterClean(v);
        forall k | k in r.entries
          ensures Within(r.entries[k], d[k])
        {
          if k == "submenu" {
            CleanedWithin(d[k]);
          } else {
            WithinSelf(d[k]);
          }
        }
      }
    }
  }

  /** Nowhere does a plain submenu, or the menu of a submenu with an icon,
      hold an entry named "submenu". */
  predicate NoSubmenuKey(e: Entry)
    decreases e
  {
    !e.PluginItem? ==> "submenu" !in e.menu && forall k :: k in e.menu ==> NoSubmenuKey(e.menu[k])
  }

  /** Without an entry named "submenu", the clean-up as written is the
      corrected `Clean`: a value is cleaned to the value of the cleaned
      entry and deleted exactly when that entry is an empty plain submenu. */
  lemma {:induction false} CleanAsWrittenAgrees(e: Entry)
    requires NoSubmenuKey(e)
    ensures AfterClean(ValueOf(e)) == ValueOf(Clean(e))
    ensures Dropped(ValueOf(e)) <==> !Kept(Clean(e))
    ensures !e.PluginItem? ==> CleanedDict(MenuValue(e.menu)) == MenuValue(Clean(e).menu)
    decreases e
  {
    match e
    case PluginItem(p, img) =>
      var v := ValueOf(e);
      forall k | k in v.entries
        ensures !Dropped(v.entries[k]) && AfterClean(v.entries[k]) == v.entries[k]
      {
      }
      assert CleanedDict(v).entries == v.entries;
    case Folder(m) =>
      MenuCleanAgrees(e);
    case IconFolder(m, icon) =>
      MenuCleanAgrees(e);
      assert AfterClean(ValueOf(e)).entries == map["submenu" := MenuValue(Clean(e).menu), "image" := Scalar(icon)];
  }

  lemma {:induction false} MenuCleanAgrees(e: Entry)
    requires NoSubmenuKey(e) && !e.PluginItem?
    ensures CleanedDict(MenuValue(e.menu)) == MenuValue(Clean(e).menu)
    decreases e, 0
  {
    var m := e.menu;
    var v := MenuValue(m);
    forall k | k in m
      ensures (Dropped(v.entries[k]) <==> !Kept(Clean(m[k]))) && AfterClean(v.entries[k]) == ValueOf(Clean(m[k]))
    {
      CleanAsWrittenAgrees(m[k]);
    }
    assert CleanedDict(v).entries.Keys == Clean(e).menu.Keys;
  }

  /** As written, an empty folder named `submenu` inside a plain folder
      `tools` is never cleaned away, and `tools` is kept around it. */
  lemma SubmenuFolderNotCleaned()
    ensures CleanedDict(ValueOf(Folder(map["tools" := Folder(map["submenu" := Folder(map[])])])))
      == DictValue(map["tools" := DictValue(map["submenu" := DictValue(map[])])])
  {
    var inner := Folder(map[]);
    var tools := Folder(map["submenu" := inner]);
    var e := Folder(map["tools" := tools]);
    var vt := DictValue(map["submenu" := DictValue(map[])]);
    assert ValueOf(inner) == DictValue(map[]);
    assert ValueOf(tools) == vt;
    assert ValueOf(e) == DictValue(map["tools" := vt]);
    assert CleanedDict(DictValue(map[])).entries == map[];
    assert !Dropped(vt);
    assert AfterClean(vt) == vt;
    assert CleanedDict(ValueOf(e)).entries.Keys == {"tools"};
  }

  /** The corrected clean-up removes both folders. */
  lemma SubmenuFolderCleaned()
    ensures Clean(Folder(map["tools" := Folder(map["submenu" := Folder(map[])])])) == Folder(map[])
  {
    var inner := Folder(map[]);
    var tools := Folder(map["submenu" := inner]);
    assert Clean(inner) == Folder(map[]);
    assert Clean(tools) == Folder(map[]);
  }

  /** `self._clean_empty_dirs(value.get('submenu', value))` for one value of
      the menu, changing the value in place in the source. */
  method CleanValue(v: Value) returns (r: Value)
    ensures r == AfterClean(v)
    decreases v, 1
  {
    match v
    case Scalar(_) =>
      r := v;
    case DictValue(d) =>
      if "submenu" in d {
        var c := CleanDict(d["submenu"]);
        r := DictValue(d["submenu" := c]);
      } else {
        r := CleanDict(v);
      }
  }

  /** `_clean_empty_dirs(menu)`: every value is cleaned and the keys of the
      values left an empty submenu with no key but 'image' are collected,
      then deleted. */
  method CleanDict(v: Value) returns (r: Value)
    ensures r == CleanedDict(v)
    decreases v, 0
  {
    if v.Scalar? {
      return v;
    }
    var menu := v.entries;
    var cleaned: map<string, Value> := map[];
    var emptyKeys: set<string> := {};
    var todo := menu.Keys;
    while todo != {}
      invariant todo <= menu.Keys
      invariant forall k :: k in cleaned <==> k in menu && k !in todo
      invariant forall k :: k in cleaned ==> cleaned[k] == AfterClean(menu[k])
      invariant forall k :: k in emptyKeys <==> k in cleaned && Dropped(menu[k])
      decreases todo
    {
      var k :| k in todo;
      var c := CleanValue(menu[k]);
      cleaned := cleaned[k := c];
      if menu[k].DictValue? && "submenu" !in menu[k].entries && c.entries == map[] {
        emptyKeys := emptyKeys + {k};
      }
      todo := todo - {k};
    }
    r := DictValue(map k | k in cleaned && k !in emptyKeys :: cleaned[k]);
    assert r.entries == CleanedDict(v).entries;
  }

  // The records of known plugins

  /** `is_plugin_enabled`: unknown plugins are not enabled. */
  function IsEnabled(known: Dict<Known>, name: string): (r: bool)
    ensures r ==> name in known.entries
  {
    name in known.entries && known.entries[name].enabled
  }

  /** `set_plugin_enabled`: unknown plugins are ignored. */
  function SetEnabled(known: Dict<Known>, name: string, enabled: bool): (r: Dict<Known>)
    requires WellFormed(known)
    ensures WellFormed(r)
  {
    if name in known.entries then Put(known, name, known.entries[name].(enabled := enabled)) else known
  }

  /** Setting the flag of a known plugin changes that plugin's flag only;
      setting it for an unknown plugin changes nothing. */
  lemma SetEnabledQuery(known: Dict<Known>, name: string, enabled: bool, other: string)
    requires WellFormed(known)
    ensures name !in known.entries ==> SetEnabled(known, name, enabled) == known
    ensures IsEnabled(SetEnabled(known, name, enabled), other)
            == (if other == name && name in known.entries then enabled else IsEnabled(known, other))
    ensures name in known.entries ==>
      SetEnabled(known, name, enabled).entries[name].requirementsMet == known.entries[name].requirementsMet
  {
  }

  /** An outdated package: its name, installed version and required
      version. */
  datatype Upgrade = Upgrade(package: string, current: string, required: string)

  /** What `install_requirements` receives as `upgrade_packages`. */
  datatype UpgradeSlot = NoUpgrades | Upgrades(upgrades: seq<Upgrade>) | ProgressCallback

  /** `install_requirements`: every missing package is installed, then every
      outdated one upgraded to its required version; `pip(spec)` is whether
      pip succeeds for `spec`. A callable passed as `upgrade_packages` makes
      the count of operations raise, which the method reports as failure. */
  function InstallRequirements(packages: seq<string>, slot: UpgradeSlot, pip: string -> bool): bool {
    !slot.ProgressCallback?
    && (forall i :: 0 <= i < |packages| ==> pip(packages[i]))
    && (slot.Upgrades? ==> forall i :: 0 <= i < |slot.upgrades| ==> pip(slot.upgrades[i].package + ">=" + slot.upgrades[i].required))
  }

  /** The answer to the new-plugin dialog. */
  datatype NewPluginAnswer = NotNow | EnablePressed(upgradeApproved: bool)

  /** The new-plugin dialog's `handle_enable`: whether the plugin ends up
      enabled, with its requirements met. */
  function NewPluginDialog(answer: NewPluginAnswer, missing: seq<string>, outdated: seq<Upgrade>, pip: string -> bool): bool {
    match answer
    case NotNow => false
    case EnablePressed(approved) =>
      if missing == [] && outdated == [] then true
      else if outdated != [] && !approved then false
      else InstallRequirements(missing, Upgrades(outdated), pip)
  }

  /** The dialog enables a plugin exactly when the user presses Enable,
      agrees to any upgrade, and every install and upgrade succeeds. */
  lemma NewPluginDialogMeans(answer: NewPluginAnswer, missing: seq<string>, outdated: seq<Upgrade>, pip: string -> bool)
    ensures NewPluginDialog(answer, missing, outdated, pip) <==>
      (answer.EnablePressed? && (outdated == [] || answer.upgradeApproved)
       && (forall i :: 0 <= i < |missing| ==> pip(missing[i]))
       && (forall i :: 0 <= i < |outdated| ==> pip(outdated[i].package + ">=" + outdated[i].required)))
  {
  }

  /** The outcome of `enable_plugin`: its result and the new records. */
  datatype Enabling = Enabling(ok: bool, known: Dict<Known>)

  /** `enable_plugin`: an unknown plugin is refused; a loaded plugin whose
      requirements are unmet and which misses packages gets the install
      dialog (`pressed`: the user pressed Install), the installation being
      called with `slot` as its `upgrade_packages`; otherwise the plugin is
      enabled. */
  function EnableOutcome(known: Dict<Known>, plugins: Dict<PluginModule>, name: string, missing: seq<string>,
                         pressed: bool, pip: string -> bool, slot: UpgradeSlot): (r: Enabling)
    requires WellFormed(known)
    ensures WellFormed(r.known)
  {
    if name !in known.entries then Enabling(false, known)
    else if !known.entries[name].requirementsMet && name in plugins.entries && missing != [] then
      if pressed && InstallRequirements(missing, slot, pip) then
        Enabling(true, SetEnabled(Put(known, name, known.entries[name].(requirementsMet := true)), name, true))
      else Enabling(false, known)
    else Enabling(true, SetEnabled(known, name, true))
  }

  /** `enable_plugin` as written: the install dialog passes the progress
      callback where `install_requirements` expects the outdated packages. */
  function EnableAsWritten(known: Dict<Known>, plugins: Dict<PluginModule>, name: string, missing: seq<string>,
                           pressed: bool, pip: string -> bool): Enabling
    requires WellFormed(known)
  {
    EnableOutcome(known, plugins, name, missing, pressed, pip, ProgressCallback)
  }

  /** As written, a plugin that needs packages can never be enabled from
      `enable_plugin`: the installation always fails, whatever pip does. */
  lemma EnableInstallAlwaysFails(known: Dict<Known>, plugins: Dict<PluginModule>, name: string, missing: seq<string>,
                                 pressed: bool, pip: string -> bool)
    requires WellFormed(known) && name in known.entries && !known.entries[name].requirementsMet
    requires name in plugins.entries && missing != []
    ensures !EnableAsWritten(known, plugins, name, missing, pressed, pip).ok
    ensures EnableAsWritten(known, plugins, name, missing, pressed, pip).known == known
  {
  }

  /** With the progress callback in its place, `enable_plugin` succeeds
      only by enabling the plugin, and does so for a known plugin
      once the user installs and every package installs; a refusal changes
      nothing, and only that plugin's record ever changes. */
  lemma EnablePluginApplies(known: Dict<Known>, plugins: Dict<PluginModule>, name: string, missing: seq<string>,
                            pressed: bool, pip: string -> bool)
    requires WellFormed(known)
    ensures var r := EnableOutcome(known, plugins, name, missing, pressed, pip, NoUpgrades);
      (r.ok ==> IsEnabled(r.known, name))
      && (!r.ok ==> r.known == known)
      && (name in known.entries && pressed && (forall i :: 0 <= i < |missing| ==> pip(missing[i])) ==> r.ok)
      && (forall k :: k != name ==> (k in r.known.entries <==> k in known.entries))
      && (forall k :: k != name && k in known.entries ==> r.known.entries[k] == known.entries[k])
  {
  }

  class PluginManager {
    var known: Dict<Known>
    var plugins: Dict<PluginModule>

    predicate Valid()
      reads this
    {
      WellFormed(known) && WellFormed(plugins)
    }

    /** The known plugins come from the settings' `known_plugins`, empty
        when the settings have none. */
    constructor(stored: Option<Dict<Known>>)
      requires stored.Some? ==> WellFormed(stored.value)
      ensures Valid() && known == (if stored.Some? then stored.value else EmptyDict()) && plugins == EmptyDict()
    {
      known := if stored.Some? then stored.value else EmptyDict();
      plugins := EmptyDict();
    }

    predicate IsPluginEnabled(name: string)
      reads this
    {
      IsEnabled(known, name)
    }

    method SetPluginEnabled(name: string, enabled: bool)
      requires Valid()
      modifies this
      ensures Valid() && known == SetEnabled(old(known), name, enabled) && plugins == old(plugins)
    {
      if name in known.entries {
        known := Put(known, name, known.entries[name].(enabled := enabled));
      }
    }

    /** `enable_plugin` as written: the install dialog hands its progress
        callback to `install_requirements` as the outdated packages.
        `missing` is what the requirement check reports. */
    method EnablePlugin(name: string, missing: seq<string>, pressed: bool, pip: string -> bool) returns (ok: bool)
      requires Valid()
      modifies this
      ensures Valid() && plugins == old(plugins)
      ensures Enabling(ok, known) == EnableAsWritten(old(known), old(plugins), name, missing, pressed, pip)
    {
      if name !in known.entries {
        return false;
      }
      if !known.entries[name].requirementsMet && name in plugins.entries && missing != [] {
        if pressed && InstallRequirements(missing, ProgressCallback, pip) {
          // `len()` of the callback raises, so the installation never
          // reports success and the source's enabling code here is dead.
          assert false;
        }
        return false;
      }
      SetPluginEnabled(name, true);
      return true;
    }

    /** A newly seen plugin is recorded disabled, with its requirements
        unmet; when the new-plugin dialog enables it, both are set. */
    method RecordNewPlugin(name: string, enabledByDialog: bool, now: string)
      requires Valid() && name !in known.entries
      modifies this
      ensures Valid() && plugins == old(plugins)
      ensures known == Put(old(known), name, NewRecord(enabledByDialog, now))
    {
      known := Put(known, name, Known(false, now, false));
      if enabledByDialog {
        known := Put(known, name, known.entries[name].(requirementsMet := true));
        PutAgain(old(known), name, Known(false, now, false), Known(false, now, true));
        var k1 := known;
        SetPluginEnabled(name, true);
        assert known == Put(k1, name, Known(true, now, true));
        PutAgain(old(known), name, Known(false, now, true), Known(true, now, true));
      }
    }

    /** `_load_plugin`. */
    method LoadPluginFile(name: string, m: PluginModule, menu: Menu, dialog: string -> bool, now: string)
      returns (result: Menu)
      requires Valid()
      modifies this
      ensures Valid()
      ensures Loading(result, known, plugins) == LoadPlugin(name, m, Loading(menu, old(known), old(plugins)), dialog, now)
    {
      plugins := Put(plugins, name, m);
      if name !in known.entries {
        RecordNewPlugin(name, dialog(name), now);
      }
      result := menu;
      if IsPluginEnabled(name) && known.entries[name].requirementsMet {
        result := menu[name := PluginItem(name, m.image)];
      }
    }

    /** `_load_dir` of the directory `path` with entries `items`. */
    method LoadDir(path: string, items: seq<Node>, dialog: string -> bool, now: string) returns (menu: Menu)
      requires Valid()
      modifies this
      ensures Valid()
      ensures Loading(menu, known, plugins) == LoadItems(path, items, Loading(map[], old(known), old(plugins)), dialog, now)
      decreases items
    {
      menu := map[];
      for i := 0 to |items|
        invariant Valid()
        invariant Loading(menu, known, plugins) == LoadItems(path, items[..i], Loading(map[], old(known), old(plugins)), dialog, now)
      {
        assert items[..i + 1][..i] == items[..i];
        var item := items[i];
        if item.name == "__pycache__" {
          continue;
        }
        if item.DirNode? {
          var itemPath := path + "/" + item.name;
          var sub := LoadDir(itemPath, item.children, dialog, now);
          if item.hasIcon {
            menu := menu[item.name := IconFolder(sub, itemPath + "/" + item.name + "_icon.png")];
          } else {
            menu := menu[item.name := Folder(sub)];
          }
        } else if EndsWith(item.name, ".py") && !StartsWith(item.name, "__") && item.loaded.Some? {
          var m := item.loaded.value;
          var name := if m.nameAttr.Some? then m.nameAttr.value else item.name[..|item.name| - 3];
          menu := LoadPluginFile(name, m, menu, dialog, now);
        }
      }
      assert items[..|items|] == items;
    }

    /** `load_all`: the loaded plugins are cleared, the plugin directory is
        walked and the menu cleaned. */
    method LoadAll(items: seq<Node>, dialog: string -> bool, now: string) returns (menu: Value)
      requires Valid()
      modifies this
      ensures Valid()
      ensures var r := LoadItems(PluginDir, items, Loading(map[], old(known), EmptyDict()), dialog, now);
        known == r.known && plugins == r.plugins && menu == CleanedDict(MenuValue(r.menu))
    {
      plugins := EmptyDict();
      var loaded := LoadDir(PluginDir, items, dialog, now);
      menu := CleanDict(MenuValue(loaded));
    }

    /** `get_plugin_list`. */
    function GetPluginList(): seq<string>
      reads this
    {
      plugins.keys
    }
  }

  /** After `load_all` the menu is the loaded menu with some entries
      deleted, and the loaded menu shows only enabled plugins whose
      requirements are met; without an entry named "submenu" it is the
      corrected clean-up, with no empty plain submenu. Every previously
      known plugin keeps its record, and every newly seen one is recorded as
      new. */
  lemma LoadAllMeans(known: Dict<Known>, items: seq<Node>, dialog: string -> bool, now: string)
    requires WellFormed(known)
    ensures var r := LoadItems(PluginDir, items, Loading(map[], known, EmptyDict()), dialog, now);
      var menu := CleanedDict(MenuValue(r.menu));
      ShowsEnabled(Folder(r.menu), r.known) && Within(menu, MenuValue(r.menu))
      && (NoSubmenuKey(Folder(r.menu)) ==>
            menu == MenuValue(Clean(Folder(r.menu)).menu) && NoEmptyFolder(Clean(Folder(r.menu)))
            && ShowsEnabled(Clean(Folder(r.menu)), r.known))
      && Extends(known, r.known) && NewRecords(known, r.known, dialog, now)
      && forall k :: k in r.plugins.entries ==> k in r.known.entries
  {
    var st := Loading(map[], known, EmptyDict());
    var r := LoadItems(PluginDir, items, st, dialog, now);
    LoadItemsShowsEnabled(PluginDir, items, st, dialog, now);
    LoadItemsRecords(PluginDir, items, st, dialog, now);
    CleanedWithin(MenuValue(r.menu));
    if NoSubmenuKey(Folder(r.menu)) {
      MenuCleanAgrees(Folder(r.menu));
    }
    CleanShowsEnabled(Folder(r.menu), r.known);
    CleanLeavesNoEmptyFolder(Folder(r.menu));
  }

  /** Cleaning removes entries only, so it shows nothing new. */
  lemma {:induction false} CleanShowsEnabled(e: Entry, known: Dict<Known>)
    requires ShowsEnabled(e, known)
    ensures ShowsEnabled(Clean(e), known)
    decreases e
  {
    if !e.PluginItem? {
      forall k | k in Clean(e).menu
        ensures ShowsEnabled(Clean(e).menu[k], known)
      {
        CleanShowsEnabled(e.menu[k], known);
      }
    }
  }

  // ---------------------------------------------------------------------
  // Navigation history of the main window

  /** A widget the main window shows; `plugin` when it is a plugin's
      widget. */
  datatype Screen = Screen(id: nat, plugin: bool)

  /** The shown widget, the history of earlier ones, and the widget at
      index 0 of the content stack: the first one ever shown. */
  datatype Nav = Nav(current: Option<Screen>, history: seq<Screen>, root: Option<Screen>)

  /** `set_content`: the shown widget, if any, goes onto the history; the
      first widget shown becomes the stack's index 0. */
  function SetContent(n: Nav, w: Screen): (r: Nav)
    ensures r.current == Some(w) && r.root == (if n.root.None? then Some(w) else n.root)
    ensures n.current.Some? ==> r.history == n.history + [n.current.value]
    ensures n.current.None? ==> r.history == n.history
  {
    Nav(Some(w), n.history + (if n.current.Some? then [n.current.value] else []),
        if n.root.None? then Some(w) else n.root)
  }

  /** The history's last widget shown again and dropped from it. */
  function Pop(n: Nav): Nav
    requires n.history != []
  {
    Nav(Some(n.history[|n.history| - 1]), n.history[..|n.history| - 1], n.root)
  }

  /** `minimize_plugin` of the plugin on screen: back to the last widget
      of the history, or, with none, the main menu shown afresh as `menu`
      when there is a menu. */
  function Minimize(n: Nav, menu: Screen, hasMenu: bool): Nav {
    if n.history != [] then Pop(n)
    else if hasMenu then SetContent(n, menu)
    else n
  }

  /** `show_menu(menu_structure)`: a plugin on screen is first minimised
      (back one step), then the fresh menu widget `menu` is shown. */
  function ShowMenu(n: Nav, menu: Screen): Nav {
    var m := if n.current.Some? && n.current.value.plugin && n.history != [] then Pop(n) else n;
    SetContent(m, menu)
  }

  /** The step `go_back` takes after any minimising: the last widget of the
      history comes back, and if it is the stack's index 0 the main menu is
      shown afresh over it; with no history the main menu is shown. */
  function StepBack(n: Nav, menu: Screen, hasMenu: bool): Nav {
    if n.history != [] then
      var p := Pop(n);
      if hasMenu && p.current == n.root then ShowMenu(p, menu) else p
    else if hasMenu then ShowMenu(n, menu)
    else n
  }

  /** `go_back` as written: a plugin on screen is minimised, which already
      steps back, and then `go_back` steps back once more. */
  function GoBackAsWritten(n: Nav, menu: Screen, hasMenu: bool): Nav {
    var m := if n.current.Some? && n.current.value.plugin then Minimize(n, menu, hasMenu) else n;
    StepBack(m, menu, hasMenu)
  }

  /** Going back from a plugin opened from a submenu skips the submenu: it
      lands on the root screen, where the main menu is shown afresh. */
  lemma BackFromPluginSkipsLevel()
    ensures var root, sub, plugin, menu := Screen(0, false), Screen(1, false), Screen(2, true), Screen(3, false);
      var before := Nav(Some(sub), [root], Some(root));
      GoBackAsWritten(SetContent(before, plugin), menu, true) == Nav(Some(menu), [root], Some(root))
      && GoBack(SetContent(before, plugin), menu, true) == before
  {
    var root, sub, plugin, menu := Screen(0, false), Screen(1, false), Screen(2, true), Screen(3, false);
    var before := Nav(Some(sub), [root], Some(root));
    var shown := SetContent(before, plugin);
    assert shown.history == [root, sub];
    assert shown.history[..1] == [root];
    assert Minimize(shown, menu, true) == before;
    assert [root][..0] == [];
    assert Pop(before) == Nav(Some(root), [], Some(root));
  }

  /** `go_back` as evidently intended: one step back, the plugin on screen
      being minimised by that step. */
  function GoBack(n: Nav, menu: Screen, hasMenu: bool): Nav {
    StepBack(n, menu, hasMenu)
  }

  /** Without a plugin on screen the two readings agree. */
  lemma GoBackAgrees(n: Nav, menu: Screen, hasMenu: bool)
    requires n.current.None? || !n.current.value.plugin
    ensures GoBackAsWritten(n, menu, hasMenu) == GoBack(n, menu, hasMenu)
  {
  }

  /** Going back right after showing a widget over another returns to the
      screen and history before it, unless that screen is the stack's
      index 0 and there is a menu: then the history keeps it and the main
      menu is shown afresh. */
  lemma BackUndoesSetContent(n: Nav, w: Screen, menu: Screen, hasMenu: bool)
    requires n.current.Some? && n.root.Some?
    ensures !(hasMenu && n.current == n.root) ==> GoBack(SetContent(n, w), menu, hasMenu) == n
    ensures hasMenu && n.current == n.root && !n.current.value.plugin ==>
      GoBack(SetContent(n, w), menu, hasMenu) == Nav(Some(menu), n.history + [n.current.value], n.root)
  {
    var m := SetContent(n, w);
    assert m.history[..|m.history| - 1] == n.history;
    assert Pop(m) == n;
  }

  class Navigator {
    var current: Option<Screen>
    var history: seq<Screen>
    var root: Option<Screen>

    constructor()
      ensures current.None? && history == [] && root.None?
    {
      current := None;
      history := [];
      root := None;
    }

    function State(): Nav
      reads this
    {
      Nav(current, history, root)
    }

    method SetContentTo(w: Screen)
      modifies this
      ensures State() == SetContent(old(State()), w)
    {
      if current.Some? {
        history := history + [current.value];
      }
      if root.None? {
        root := Some(w);
      }
      current := Some(w);
    }

    method PopHistory()
      requires history != []
      modifies this
      ensures State() == Pop(old(State()))
    {
      current := Some(history[|history| - 1]);
      history := history[..|history| - 1];
    }

    /** `minimize_plugin`. With no history the source's call to `show_menu`
        would recurse back here without end; the model shows the menu. */
    method MinimizePlugin(menu: Screen, hasMenu: bool)
      modifies this
      ensures State() == Minimize(old(State()), menu, hasMenu)
    {
      if history != [] {
        PopHistory();
      } else if hasMenu {
        SetContentTo(menu);
      }
    }

    method ShowMainMenu(menu: Screen)
      modifies this
      ensures State() == ShowMenu(old(State()), menu)
    {
      if current.Some? && current.value.plugin && history != [] {
        PopHistory();
      }
      SetContentTo(menu);
    }

    /** `go_back`, as written. */
    method Back(menu: Screen, hasMenu: bool)
      modifies this
      ensures State() == GoBackAsWritten(old(State()), menu, hasMenu)
    {
      if current.Some? && current.value.plugin {
        MinimizePlugin(menu, hasMenu);
      }
      if history != [] {
        var first := root;
        PopHistory();
        if hasMenu && current == first {
          ShowMainMenu(menu);
        }
      } else if hasMenu {
        ShowMainMenu(menu);
      }
    }
  }
}
