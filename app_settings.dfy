/**
 * The application settings of `converter_app/settings.py`: one `Settings`
 * object whose fields are written back to `settings.json` after every
 * assignment, the checks and handlers of its dialog, and the shared
 * instance. The JSON file is an object of its own, `SettingsFile`; the
 * directory the program lives in is its `directory`.
 */
module AppSettings {
  import opened Common

  /** A JSON value as `json.load` returns it. */
  datatype Json = JInt(i: int) | JStr(s: string) | JBool(b: bool) | JNull | JOther

  /** The six settings, as one value. */
  datatype Snapshot = Snapshot(
    pdfPath: string,
    xmlFolder: string,
    beraternummer: int,
    mandantennummer: int,
    sachkontenlaenge: int,
    buchungskonto: int)

  /** What `save` writes: the six keys in order, the paths as text. */
  function ToJson(s: Snapshot): seq<(string, Json)>
  {
    [("pdf_path", JStr(s.pdfPath)), ("xml_folder", JStr(s.xmlFolder)), ("beraternummer", JInt(s.beraternummer)),
     ("mandantennummer", JInt(s.mandantennummer)), ("sachkontenlaenge", JInt(s.sachkontenlaenge)),
     ("buchungskonto", JInt(s.buchungskonto))]
  }

  /** Python `int(value)` on a JSON value. */
  function IntOf(v: Json): Result<int>
  {
    match v
    case JInt(i) => Ok(i)
    case JStr(s) => ParseInt(s)
    case JBool(b) => Ok(if b then 1 else 0)
    case _ => Err(TypeError("int()"))
  }

  // ---------------------------------------------------------------------------
  // Paths
  // ---------------------------------------------------------------------------

  /**
   * The root `posixpath.splitroot` finds: none, one slash, or two exactly
   * when the text begins with two slashes and not three.
   */
  function PathRoot(s: string): (r: string)
    ensures |r| <= |s| && r == s[..|r|]
  {
    if |s| == 0 || s[0] != '/' then ""
    else if |s| == 1 || s[1] != '/' || (|s| >= 3 && s[2] == '/') then "/"
    else "//"
  }

  /** A path component as pathlib keeps it: not empty, not ".", without a slash. */
  predicate Component(p: string)
  {
    p != "" && p != "." && NoChar(p, '/')
  }

  /** The components pathlib keeps from the split text: the empty ones and "." are dropped. */
  function KeepParts(parts: seq<string>): seq<string>
  {
    if |parts| == 0 then []
    else (if parts[0] != "" && parts[0] != "." then [parts[0]] else []) + KeepParts(parts[1..])
  }

  /**
   * `str(Path(s))` on a POSIX system: the root, then the kept components
   * joined by one slash; "." when nothing is left. So a trailing "/" is
   * dropped and "//" and "/./" inside the path collapse.
   */
  function NormPath(s: string): string
  {
    var root := PathRoot(s);
    var text := root + Join(KeepParts(Split(s[|root|..], '/')), '/');
    if text == "" then "." else text
  }

  lemma {:induction false} KeepPartsComponents(parts: seq<string>)
    requires NoneContain(parts, '/')
    ensures forall k :: 0 <= k < |KeepParts(parts)| ==> Component(KeepParts(parts)[k])
  {
    if |parts| > 0 {
      KeepPartsComponents(parts[1..]);
      assert NoChar(parts[0], '/');
    }
  }

  lemma {:induction false} KeepPartsOfComponents(parts: seq<string>)
    requires forall k :: 0 <= k < |parts| ==> Component(parts[k])
    ensures KeepParts(parts) == parts
  {
    if |parts| > 0 {
      KeepPartsOfComponents(parts[1..]);
      assert [parts[0]] + parts[1..] == parts;
    }
  }

  /** A path written back by `str` reads as the same path: normalising twice changes nothing. */
  lemma NormPathIdempotent(s: string)
    ensures NormPath(NormPath(s)) == NormPath(s)
  {
    var root := PathRoot(s);
    var split := Split(s[|root|..], '/');
    var parts := KeepParts(split);
    SplitNoneContain(s[|root|..], '/');
    KeepPartsComponents(split);
    var n := NormPath(s);
    if |parts| == 0 {
      if root == "" {
        assert n == ".";
        var dot := ".";
        assert |dot| == 1 && dot[0] == '.' && dot[1..] == "";
        assert Split(dot[1..], '/') == [""];
        assert [dot[0]] + "" == dot;
        assert Split(dot, '/') == [dot];
        assert KeepParts(["."]) == [];
      } else {
        assert n == root;
        assert PathRoot(n) == root;
        assert n[|root|..] == "";
        assert KeepParts([""]) == [];
      }
    } else {
      assert Component(parts[0]);
      JoinFirst(parts, '/');
      var j := Join(parts, '/');
      assert n == root + j;
      assert PathRoot(n) == root;
      assert n[|root|..] == j;
      forall k | 0 <= k < |parts| ensures NoChar(parts[k], '/') {
        assert Component(parts[k]);
      }
      SplitJoin(parts, '/');
      KeepPartsOfComponents(parts);
    }
  }

  /** A trailing slash is dropped: `Path("a/")` is "a". */
  lemma NormPathTrailingSlash()
    ensures NormPath("a/") == "a"
  {
    var t := "a/";
    assert PathRoot(t) == "" && t[0..] == t;
    assert t[0] == 'a' && t[1..] == "/" && t[1..][0] == '/' && t[1..][1..] == "";
    assert Split(t[1..], '/') == ["", ""];
    assert [t[0]] + "" == "a";
    assert Split(t, '/') == ["a", ""];
    assert KeepParts(["a", ""]) == ["a"];
  }

  /** Two leading slashes are kept, three or more become one. */
  lemma NormPathRoots()
    ensures NormPath("//a") == "//a"
    ensures NormPath("///a") == "/a"
  {
    var a := "a";
    assert a[0] == 'a' && a[1..] == "";
    assert [a[0]] + "" == "a";
    assert Split(a, '/') == ["a"];
    assert KeepParts(["a"]) == ["a"];
    var u := "//a";
    assert PathRoot(u) == "//" && u[2..] == a;
    var w := "///a";
    assert PathRoot(w) == "/" && w[3..] == a;
    assert w[2..][0] == '/' && w[2..][1..] == a;
    assert Split(w[2..], '/') == ["", "a"];
    assert w[1..][0] == '/' && w[1..][1..] == w[2..];
    assert Split(w[1..], '/') == ["", "", "a"];
    assert KeepParts(["", "", "a"]) == ["a"];
  }

  /** A text pathlib leaves as it is. */
  predicate NormalPath(s: string)
  {
    NormPath(s) == s
  }

  /** Both stored paths are as pathlib writes them. */
  predicate PathsNormal(s: Snapshot)
  {
    NormalPath(s.pdfPath) && NormalPath(s.xmlFolder)
  }

  /** `Path(value)` on a JSON value: a text is normalised as above. */
  function PathOf(v: Json): (r: Result<string>)
    ensures r.Ok? <==> v.JStr?
  {
    if v.JStr? then Ok(NormPath(v.s))
    else Err(TypeError("Path()"))
  }

  /** One case of the `match key` in `load_json`; an unknown key changes nothing. */
  function ApplyEntry(s: Snapshot, key: string, value: Json): (r: Result<Snapshot>)
  {
    match key
    case "pdf_path" => var p :- PathOf(value); Ok(s.(pdfPath := p))
    case "xml_folder" => var p :- PathOf(value); Ok(s.(xmlFolder := p))
    case "beraternummer" => var n :- IntOf(value); Ok(s.(beraternummer := n))
    case "mandantennummer" => var n :- IntOf(value); Ok(s.(mandantennummer := n))
    case "sachkontenlaenge" => var n :- IntOf(value); Ok(s.(sachkontenlaenge := n))
    case "buchungskonto" => var n :- IntOf(value); Ok(s.(buchungskonto := n))
    case _ => Ok(s)
  }

  predicate Known(key: string)
  {
    key == "pdf_path" || key == "xml_folder" || key == "beraternummer" || key == "mandantennummer"
    || key == "sachkontenlaenge" || key == "buchungskonto"
  }

  /**
   * Each recognised key sets exactly its own field from the converted
   * value; an unknown key leaves the settings as they are.
   */
  lemma ApplyEntryFields(s: Snapshot, key: string, value: Json)
    ensures !Known(key) ==> ApplyEntry(s, key, value) == Ok(s)
    ensures key == "pdf_path" && value.JStr? ==> ApplyEntry(s, key, value) == Ok(s.(pdfPath := NormPath(value.s)))
    ensures key == "xml_folder" && value.JStr? ==> ApplyEntry(s, key, value) == Ok(s.(xmlFolder := NormPath(value.s)))
    ensures key == "beraternummer" && IntOf(value).Ok? ==>
      ApplyEntry(s, key, value) == Ok(s.(beraternummer := IntOf(value).value))
    ensures key == "mandantennummer" && IntOf(value).Ok? ==>
      ApplyEntry(s, key, value) == Ok(s.(mandantennummer := IntOf(value).value))
    ensures key == "sachkontenlaenge" && IntOf(value).Ok? ==>
      ApplyEntry(s, key, value) == Ok(s.(sachkontenlaenge := IntOf(value).value))
    ensures key == "buchungskonto" && IntOf(value).Ok? ==>
      ApplyEntry(s, key, value) == Ok(s.(buchungskonto := IntOf(value).value))
    ensures ApplyEntry(s, key, value).Err? <==>
      ((key == "pdf_path" || key == "xml_folder") && !value.JStr?)
      || (Known(key) && key != "pdf_path" && key != "xml_folder" && IntOf(value).Err?)
  {
    if key == "pdf_path" || key == "xml_folder" {
    } else if Known(key) {
    } else {
    }
  }

  /** What the loop of `load_json` leaves: the settings so far, the exception that ended it, and whether any known key was applied. */
  datatype Loaded = Loaded(state: Snapshot, error: Option<Error>, anyApplied: bool)

  /** The loop of `load_json` over the file's entries, in order, stopping at the first exception. */
  function Load(s: Snapshot, data: seq<(string, Json)>): Loaded
  {
    if |data| == 0 then Loaded(s, None, false)
    else
      var front := Load(s, data[..|data| - 1]);
      var (key, value) := data[|data| - 1];
      if front.error.Some? then front
      else
        var r := ApplyEntry(front.state, key, value);
        if r.Err? then Loaded(front.state, Some(r.error), front.anyApplied)
        else Loaded(r.value, None, front.anyApplied || Known(key))
  }

  /**
   * Loading what `save` wrote gives back the same settings, without an
   * exception, for settings whose paths came through `Path` (LoadKeepsPaths).
   */
  lemma LoadOfSave(s: Snapshot, t: Snapshot)
    requires PathsNormal(s)
    ensures Load(t, ToJson(s)) == Loaded(s, None, true)
  {
    var d := ToJson(s);
    var s1 := t.(pdfPath := s.pdfPath);
    var s2 := s1.(xmlFolder := s.xmlFolder);
    var s3 := s2.(beraternummer := s.beraternummer);
    var s4 := s3.(mandantennummer := s.mandantennummer);
    var s5 := s4.(sachkontenlaenge := s.sachkontenlaenge);
    ApplySavedPaths(t, s.pdfPath, s1);
    ApplySavedPaths(s1, s.xmlFolder, s1);
    ApplySavedNumbers(s2, s);
    ApplySavedNumbers(s3, s);
    ApplySavedNumbers(s4, s);
    ApplySavedNumbers(s5, s);
    assert d[..0] == [];
    LoadStep(t, d, 0, t, false);
    LoadStep(t, d, 1, s1, true);
    LoadStep(t, d, 2, s2, true);
    LoadStep(t, d, 3, s3, true);
    LoadStep(t, d, 4, s4, true);
    LoadStep(t, d, 5, s5, true);
    assert d[..6] == d;
  }

  /** Applying a saved path: `Path` leaves a path pathlib wrote as it is. */
  lemma ApplySavedPaths(u: Snapshot, p: string, v: Snapshot)
    requires NormalPath(p)
    ensures ApplyEntry(u, "pdf_path", JStr(p)) == Ok(u.(pdfPath := p))
    ensures ApplyEntry(v, "xml_folder", JStr(p)) == Ok(v.(xmlFolder := p))
  {
  }

  lemma ApplySavedNumbers(u: Snapshot, s: Snapshot)
    ensures ApplyEntry(u, "beraternummer", JInt(s.beraternummer)) == Ok(u.(beraternummer := s.beraternummer))
    ensures ApplyEntry(u, "mandantennummer", JInt(s.mandantennummer)) == Ok(u.(mandantennummer := s.mandantennummer))
    ensures ApplyEntry(u, "sachkontenlaenge", JInt(s.sachkontenlaenge)) == Ok(u.(sachkontenlaenge := s.sachkontenlaenge))
    ensures ApplyEntry(u, "buchungskonto", JInt(s.buchungskonto)) == Ok(u.(buchungskonto := s.buchungskonto))
  {
  }

  /** One more entry of the load, applied without an exception. */
  lemma LoadStep(t: Snapshot, d: seq<(string, Json)>, k: nat, u: Snapshot, applied: bool)
    requires k < |d| && Load(t, d[..k]) == Loaded(u, None, applied)
    requires ApplyEntry(u, d[k].0, d[k].1).Ok?
    ensures Load(t, d[..k + 1]) == Loaded(ApplyEntry(u, d[k].0, d[k].1).value, None, applied || Known(d[k].0))
  {
    assert d[..k + 1][..k] == d[..k];
  }

  /** Loading keeps the stored paths as pathlib writes them. */
  lemma {:induction false} LoadKeepsPaths(s: Snapshot, data: seq<(string, Json)>)
    requires PathsNormal(s)
    ensures PathsNormal(Load(s, data).state)
  {
    if |data| > 0 {
      var front := Load(s, data[..|data| - 1]);
      LoadKeepsPaths(s, data[..|data| - 1]);
      if front.error.None? {
        ApplyKeepsPaths(front.state, data[|data| - 1].0, data[|data| - 1].1);
      }
    }
  }

  lemma ApplyKeepsPaths(s: Snapshot, key: string, value: Json)
    requires PathsNormal(s)
    ensures ApplyEntry(s, key, value).Ok? ==> PathsNormal(ApplyEntry(s, key, value).value)
  {
    ApplyEntryFields(s, key, value);
    if ApplyEntry(s, key, value).Ok? && value.JStr? {
      NormPathIdempotent(value.s);
    }
  }

  /** Entries with unknown keys only leave the settings unchanged. */
  lemma {:induction false} LoadUnknown(s: Snapshot, data: seq<(string, Json)>)
    requires forall i :: 0 <= i < |data| ==> !Known(data[i].0)
    ensures Load(s, data) == Loaded(s, None, false)
  {
    if |data| > 0 {
      LoadUnknown(s, data[..|data| - 1]);
    }
  }

  /** Once an entry raises, the later entries are never applied. */
  lemma {:induction false} LoadStops(s: Snapshot, data: seq<(string, Json)>, k: nat)
    requires k <= |data| && Load(s, data[..k]).error.Some?
    ensures Load(s, data) == Load(s, data[..k])
    decreases |data|
  {
    if k < |data| {
      var front := data[..|data| - 1];
      assert front[..k] == data[..k];
      LoadStops(s, front, k);
      assert Load(s, front).error.Some?;
    } else {
      assert data[..k] == data;
    }
  }

  // ---------------------------------------------------------------------------
  // The settings file and the settings object
  // ---------------------------------------------------------------------------

  /** `settings.json`, beside the program: absent, or a JSON object's entries. */
  class SettingsFile {
    const directory: string
    var content: Option<seq<(string, Json)>>

    constructor(directory: string, content: Option<seq<(string, Json)>>)
      ensures this.directory == directory && this.content == content
    {
      this.directory := directory;
      this.content := content;
    }
  }

  /** The values `Settings` starts from: its class attributes. */
  function Defaults(directory: string): Snapshot
  {
    Snapshot(directory, directory, 0, 0, 4, 0)
  }

  class Settings {
    const file: SettingsFile
    var pdfPath: string
    var xmlFolder: string
    var beraternummer: int
    var mandantennummer: int
    var sachkontenlaenge: int
    var buchungskonto: int

    function Current(): Snapshot
      reads this
    {
      Snapshot(pdfPath, xmlFolder, beraternummer, mandantennummer, sachkontenlaenge, buchungskonto)
    }

    /** The object before `__init__` has run `load_json`: the class attributes. */
    constructor(file: SettingsFile)
      ensures this.file == file && Current() == Defaults(file.directory)
    {
      this.file := file;
      pdfPath, xmlFolder := file.directory, file.directory;
      beraternummer, mandantennummer, sachkontenlaenge, buchungskonto := 0, 0, 4, 0;
    }

    /** `save`: the file holds the current settings. */
    method Save()
      modifies file
      ensures file.content == Some(ToJson(Current()))
    {
      file.content := Some(ToJson(Current()));
    }

    /**
     * One pass of the `match key` in `load_json`: a recognised key assigns
     * its field, which saves; an unknown key does nothing; a value the
     * field's conversion refuses raises.
     */
    method ApplyOne(key: string, value: Json) returns (error: Option<Error>)
      modifies this, file
      ensures var r := ApplyEntry(old(Current()), key, value);
        && error == (if r.Err? then Some(r.error) else None)
        && Current() == (if r.Ok? then r.value else old(Current()))
        && file.content == (if r.Ok? && Known(key) then Some(ToJson(Current())) else old(file.content))
    {
      var r := ApplyEntry(Current(), key, value);
      if r.Err? {
        return Some(r.error);
      }
      if Known(key) {
        pdfPath, xmlFolder := r.value.pdfPath, r.value.xmlFolder;
        beraternummer, mandantennummer := r.value.beraternummer, r.value.mandantennummer;
        sachkontenlaenge, buchungskonto := r.value.sachkontenlaenge, r.value.buchungskonto;
        Save();
      } else {
        ApplyEntryFields(Current(), key, value);
      }
      return None;
    }

    /** `check_csv_settings`: every number the CSV export needs is positive. */
    predicate CheckCsvSettings()
      reads this
    {
      if beraternummer <= 0 then false
      else if mandantennummer <= 0 then false
      else if sachkontenlaenge <= 0 then false
      else buchungskonto > 0
    }

    /**
     * `load_json`: a missing file is first written with the current
     * settings; then every entry is applied in order, each assignment
     * written back, until the first exception.
     */
    method LoadJson() returns (error: Option<Error>)
      modifies this, file
      ensures var data := if old(file.content).Some? then old(file.content).value else ToJson(old(Current()));
        var l := Load(old(Current()), data);
        && Current() == l.state && error == l.error
        && file.content == (if old(file.content).None? || l.anyApplied then Some(ToJson(Current())) else old(file.content))
    {
      if file.content.None? {
        Save();
      }
      var data := file.content.value;
      ghost var start := Current();
      ghost var startContent := file.content;
      ghost var anyApplied := false;
      error := None;
      for i := 0 to |data|
        invariant Load(start, data[..i]) == Loaded(Current(), None, anyApplied) && error.None?
        invariant file.content == if anyApplied then Some(ToJson(Current())) else startContent
      {
        assert data[..i + 1][..i] == data[..i];
        var (key, value) := data[i];
        error := ApplyOne(key, value);
        if error.Some? {
          LoadStops(start, data, i + 1);
          return;
        }
        anyApplied := anyApplied || Known(key);
      }
      assert data[..|data|] == data;
    }

    /** The account-length "+" button: one more, up to 8. */
    method IncreaseSachkontenlaenge()
      modifies this, file
      ensures sachkontenlaenge == Step(old(sachkontenlaenge), Increase)
      ensures Current() == old(Current()).(sachkontenlaenge := sachkontenlaenge)
      ensures file.content == if old(sachkontenlaenge) < 8 then Some(ToJson(Current())) else old(file.content)
    {
      if sachkontenlaenge < 8 {
        sachkontenlaenge := sachkontenlaenge + 1;
        Save(); // the assignment saves through `__setattr__`
        Save(); // then the explicit `save()`
      }
    }

    /** The account-length "-" button: one less, down to 4. */
    method DecreaseSachkontenlaenge()
      modifies this, file
      ensures sachkontenlaenge == Step(old(sachkontenlaenge), Decrease)
      ensures Current() == old(Current()).(sachkontenlaenge := sachkontenlaenge)
      ensures file.content == if old(sachkontenlaenge) > 4 then Some(ToJson(Current())) else old(file.content)
    {
      if sachkontenlaenge > 4 {
        sachkontenlaenge := sachkontenlaenge - 1;
        Save(); // the assignment saves through `__setattr__`
        Save(); // then the explicit `save()`
      }
    }

    /**
     * `save_number` of a number input: the entry's text as `int`, stored in
     * its field and saved; text that is not an integer changes nothing.
     */
    method SaveNumber(field: NumberField, text: string)
      modifies this, file
      ensures ParseInt(text).Err? ==> Current() == old(Current()) && file.content == old(file.content)
      ensures ParseInt(text).Ok? ==>
        Current() == SetNumber(old(Current()), field, ParseInt(text).value) && file.content == Some(ToJson(Current()))
    {
      var value := ParseInt(text);
      if value.Err? {
        return;
      }
      match field {
        case Beraternummer => beraternummer := value.value;
        case Mandantennummer => mandantennummer := value.value;
        case Buchungskonto => buchungskonto := value.value;
      }
      Save(); // the assignment saves through `__setattr__`
      Save(); // then the explicit `save()`
    }

    /** `change_pdf_path`: a chosen directory replaces the PDF path; cancelling the dialog changes nothing. */
    method ChangePdfPath(newPath: string)
      modifies this, file
      ensures Current() == if newPath != "" then old(Current()).(pdfPath := NormPath(newPath)) else old(Current())
      ensures file.content == if newPath != "" then Some(ToJson(Current())) else old(file.content)
    {
      if newPath != "" {
        pdfPath := NormPath(newPath);
        Save(); // the assignment saves through `__setattr__`
        Save(); // then the explicit `save()`
      }
    }

    /** `change_xml_folder`: a chosen directory replaces the XML folder; cancelling changes nothing. */
    method ChangeXmlFolder(newPath: string)
      modifies this, file
      ensures Current() == if newPath != "" then old(Current()).(xmlFolder := NormPath(newPath)) else old(Current())
      ensures file.content == if newPath != "" then Some(ToJson(Current())) else old(file.content)
    {
      if newPath != "" {
        xmlFolder := NormPath(newPath);
        Save(); // the assignment saves through `__setattr__`
        Save(); // then the explicit `save()`
      }
    }
  }

  /** The three number inputs of the dialog. */
  datatype NumberField = Beraternummer | Mandantennummer | Buchungskonto

  function SetNumber(s: Snapshot, field: NumberField, value: int): Snapshot
  {
    match field
    case Beraternummer => s.(beraternummer := value)
    case Mandantennummer => s.(mandantennummer := value)
    case Buchungskonto => s.(buchungskonto := value)
  }

  /** `check_csv_settings` holds exactly when all four numbers are positive. */
  lemma CheckCsvSettingsIff(s: Settings)
    ensures s.CheckCsvSettings() <==>
      s.beraternummer > 0 && s.mandantennummer > 0 && s.sachkontenlaenge > 0 && s.buchungskonto > 0
  {
  }

  // ---------------------------------------------------------------------------
  // The account-length selector
  // ---------------------------------------------------------------------------

  datatype Press = Increase | Decrease

  /** One press of "+" or "-". */
  function Step(n: int, p: Press): int
  {
    match p
    case Increase => if n < 8 then n + 1 else n
    case Decrease => if n > 4 then n - 1 else n
  }

  /** A run of presses. */
  function Steps(n: int, ps: seq<Press>): int
  {
    if |ps| == 0 then n else Step(Steps(n, ps[..|ps| - 1]), ps[|ps| - 1])
  }

  /** Starting between 4 and 8, any run of presses stays between 4 and 8. */
  lemma {:induction false} StepsStayInRange(n: int, ps: seq<Press>)
    requires 4 <= n <= 8
    ensures 4 <= Steps(n, ps) <= 8
  {
    if |ps| > 0 {
      StepsStayInRange(n, ps[..|ps| - 1]);
    }
  }

  /** A value outside 4 to 8 only moves towards the range: "+" never raises it past 8, "-" never lowers it under 4. */
  lemma StepBounds(n: int, p: Press)
    ensures Step(n, p) == n || (p == Increase && Step(n, p) == n + 1 <= 8) || (p == Decrease && Step(n, p) == n - 1 >= 4)
  {
  }

  // ---------------------------------------------------------------------------
  // The shared instance
  // ---------------------------------------------------------------------------

  /** The module global `settings_instance`. */
  class Registry {
    const file: SettingsFile
    var instance: Settings?

    constructor(file: SettingsFile)
      ensures this.file == file && instance == null
    {
      this.file := file;
      instance := null;
    }

    /**
     * `getinstance`: the first call creates the settings and loads the
     * file; every later call returns that same object. When loading raises,
     * no instance is kept.
     */
    method GetInstance() returns (r: Result<Settings>)
      modifies this, file
      ensures old(instance) != null ==> r.Ok? && r.value == old(instance) && instance == old(instance) && file.content == old(file.content)
      ensures old(instance) == null && r.Ok? ==> fresh(r.value) && instance == r.value && r.value.file == file
      ensures r.Err? ==> instance == null
      ensures old(instance) == null ==>
        var data := if old(file.content).Some? then old(file.content).value else ToJson(Defaults(file.directory));
        var l := Load(Defaults(file.directory), data);
        && (r.Ok? <==> l.error.None?)
        && (r.Err? ==> r.error == l.error.value)
        && (r.Ok? ==> r.value.Current() == l.state)
        && file.content == (if old(file.content).None? || l.anyApplied then Some(ToJson(l.state)) else old(file.content))
    {
      if instance != null {
        return Ok(instance);
      }
      var s := new Settings(file);
      var error := s.LoadJson();
      if error.Some? {
        return Err(error.value);
      }
      instance := s;
      return Ok(s);
    }
  }
}
