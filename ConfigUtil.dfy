/**
 * `ConfigUtil.JsonConfig`: opening a configuration file, resolving paths relative to
 * it, and parsing logging levels. Reading and decoding the file is an oracle
 * (`load`), and the working directory is a parameter of `os.path.abspath`.
 */
module ConfigUtil {
  import opened Wrappers
  import opened PyStr
  import StringUtil
  import Validator

  /** The constants of Python's `logging` module. */
  const CRITICAL := 50
  const ERROR := 40
  const WARNING := 30
  const INFO := 20
  const DEBUG := 10
  const NOTSET := 0

  /** A level as it may be passed in: a Python `int`, a `str`, or `None`. */
  datatype LevelInput = NoLevel | Number(n: int) | Text(s: string)

  /** The level named by a lower-cased name, if it is one of the six. */
  function LevelOfName(t: string): Option<int> {
    if t == "critical" then Some(CRITICAL)
    else if t == "error" then Some(ERROR)
    else if t == "warning" then Some(WARNING)
    else if t == "info" then Some(INFO)
    else if t == "debug" then Some(DEBUG)
    else if t == "notset" then Some(NOTSET)
    else None
  }

  /** The level with this number, if it is one of the six. */
  function LevelOfNumber(n: int): Option<int> {
    if n == 50 then Some(CRITICAL)
    else if n == 40 then Some(ERROR)
    else if n == 30 then Some(WARNING)
    else if n == 20 then Some(INFO)
    else if n == 10 then Some(DEBUG)
    else if n == 0 then Some(NOTSET)
    else None
  }

  /** The level of the text `str(level).strip().lower()`: by number when it is numeric,
      by name otherwise. */
  function LevelOfText(t: string): Result<int> {
    if StringUtil.IsNumeric(t) then
      match LevelOfNumber(StringUtil.DigitsValue(t))
      case Some(l) => Ok(l)
      case None => Err(ValueError)
    else
      match LevelOfName(t)
      case Some(l) => Ok(l)
      case None => Err(ValueError)
  }

  /** `JsonConfig.get_logging_level(level)`. A falsy level (None, 0, "") raises
      NullValueError; a negative number is neither numeric nor a name once printed. */
  function GetLoggingLevel(level: LevelInput): (r: Result<int>)
    ensures r.Err? ==> r.error == NullValueError || r.error == ValueError
    ensures r.Err? && r.error == NullValueError <==> level == NoLevel || level == Number(0) || level == Text("")
  {
    match level
    case NoLevel => Err(NullValueError)
    case Number(n) =>
      if n == 0 then Err(NullValueError)
      else if n < 0 then Err(ValueError)
      else (match LevelOfNumber(n) case Some(l) => Ok(l) case None => Err(ValueError))
    case Text(s) =>
      if s == [] then Err(NullValueError) else LevelOfText(Norm(s))
  }

  /** Every level that comes back is one `Validator.is_logging_level` accepts, and every
      such level comes back for its own number. */
  lemma GetLoggingLevelIsLoggingLevel(level: LevelInput)
    ensures GetLoggingLevel(level).Ok? ==> Validator.IsLoggingLevel(GetLoggingLevel(level).value)
  {
  }

  /** Each valid level other than NOTSET is its own result when passed as a number. */
  lemma GetLoggingLevelOfNumber(n: int)
    requires Validator.IsLoggingLevel(n) && n != 0
    ensures GetLoggingLevel(Number(n)) == Ok(n)
  {
  }

  /** The integer 0 is falsy and rejected, while the string "0" gives NOTSET. */
  lemma GetLoggingLevelZero()
    ensures GetLoggingLevel(Number(0)) == Err(NullValueError)
    ensures GetLoggingLevel(Text("0")) == Ok(NOTSET)
  {
    StringUtil.OneDigit('0');
    assert StringUtil.DigitValue('0') == 0;
    LevelOfDigits("0", NOTSET);
  }

  /** A digit string is looked up by its value. */
  lemma LevelOfDigits(s: string, v: int)
    requires StringUtil.IsNumeric(s) && LevelOfNumber(StringUtil.DigitsValue(s)) == Some(v)
    ensures GetLoggingLevel(Text(s)) == Ok(v)
  {
    StringUtil.NormOfNormal(s);
  }

  /** The lower-case name of each level. */
  function LevelName(n: int): (name: string)
    requires Validator.IsLoggingLevel(n)
    ensures name != [] && 'a' <= name[0] <= 'z' && 'a' <= name[|name| - 1] <= 'z'
  {
    if n == CRITICAL then "critical"
    else if n == ERROR then "error"
    else if n == WARNING then "warning"
    else if n == INFO then "info"
    else if n == DEBUG then "debug"
    else "notset"
  }

  /** Each level's name, looked up, gives that level back. */
  lemma LevelNameLookup(n: int)
    requires Validator.IsLoggingLevel(n)
    ensures LevelOfName(LevelName(n)) == Some(n)
  {
  }

  /** A name lookup succeeds only for the six names, each of its own level. */
  lemma LevelOfNameInverse(t: string)
    requires LevelOfName(t).Some?
    ensures Validator.IsLoggingLevel(LevelOfName(t).value) && LevelName(LevelOfName(t).value) == t
  {
  }

  /** Every level, printed in decimal as `str(level)` would, is parsed back to itself. */
  lemma GetLoggingLevelOfDecimal(n: int)
    requires Validator.IsLoggingLevel(n)
    ensures GetLoggingLevel(Text(StringUtil.DecimalString(n))) == Ok(n)
  {
    var s := StringUtil.DecimalString(n);
    StringUtil.DecimalStringValue(n);
    LevelOfDigits(s, n);
  }

  /** Every level's name, in any case and with any whitespace around it, gives that level. */
  lemma GetLoggingLevelOfName(n: int, l: string, name: string, r: string)
    requires Validator.IsLoggingLevel(n) && AllSpace(l) && AllSpace(r)
    requires Lower(name) == LevelName(n)
    ensures GetLoggingLevel(Text(l + name + r)) == Ok(n)
  {
    var t := LevelName(n);
    LetterNotSpace(name[0]);
    LetterNotSpace(name[|name| - 1]);
    StripOfRuns(l, name, r);
    assert Norm(l + name + r) == t;
    assert !StringUtil.IsDigit(t[0]);
    LevelNameLookup(n);
  }

  /** A level comes back exactly when it is valid and the input names it: as a non-zero
      number, as digits with its value, or as its name in any case and padding. */
  lemma GetLoggingLevelOkIff(level: LevelInput, v: int)
    ensures GetLoggingLevel(level) == Ok(v) <==>
      Validator.IsLoggingLevel(v)
      && ((level.Number? && level.n == v && v != 0)
          || (level.Text? && level.s != []
              && ((StringUtil.IsNumeric(Norm(level.s)) && StringUtil.DigitsValue(Norm(level.s)) == v)
                  || Norm(level.s) == LevelName(v))))
  {
    if level.Text? && level.s != [] {
      var t := Norm(level.s);
      if Validator.IsLoggingLevel(v) && t == LevelName(v) {
        assert !StringUtil.IsDigit(t[0]);
        LevelNameLookup(v);
      }
      if !StringUtil.IsNumeric(t) && LevelOfName(t).Some? {
        LevelOfNameInverse(t);
      }
    }
  }

  /** Any other non-zero number raises ValueError. */
  lemma OtherNumberRejected(n: int)
    requires n != 0 && !Validator.IsLoggingLevel(n)
    ensures GetLoggingLevel(Number(n)) == Err(ValueError)
  {
  }

  /** Any other non-empty text raises ValueError: digits whose value is no level, or a
      text that is neither digits nor, once trimmed and lower-cased, a level's name. */
  lemma OtherTextRejected(s: string)
    requires s != []
    requires StringUtil.IsNumeric(Norm(s)) ==> !Validator.IsLoggingLevel(StringUtil.DigitsValue(Norm(s)))
    requires !StringUtil.IsNumeric(Norm(s)) ==> forall n :: Validator.IsLoggingLevel(n) ==> Norm(s) != LevelName(n)
    ensures GetLoggingLevel(Text(s)) == Err(ValueError)
  {
    var t := Norm(s);
    if !StringUtil.IsNumeric(t) && LevelOfName(t).Some? {
      LevelOfNameInverse(t);
    }
  }

  /** A character that lower-cases to a letter is not whitespace. */
  lemma LetterNotSpace(c: char)
    requires 'a' <= LowerChar(c) <= 'z'
    ensures !IsSpace(c)
  {
  }

  /** Case and surrounding whitespace never change the answer for a non-blank text. */
  lemma GetLoggingLevelNormalised(s: string)
    requires !IsBlank(s)
    ensures GetLoggingLevel(Text(s)) == GetLoggingLevel(Text(Norm(s)))
  {
    NormIdempotent(s);
  }

  lemma NormIdempotent(s: string)
    ensures Norm(Norm(s)) == Norm(s)
  {
    var t := Strip(s);
    StripFacts(s);
    var l := Lower(t);
    if l != [] {
      assert !IsSpace(l[0]) && !IsSpace(l[|l| - 1]);
    }
    StripOfStripped(l);
    LowerIdempotent(t);
  }

  lemma {:induction false} LowerIdempotent(s: string)
    ensures Lower(Lower(s)) == Lower(s)
  {
    if s != [] {
      LowerIdempotent(s[..|s| - 1]);
      assert Lower(s)[..|s| - 1] == Lower(s[..|s| - 1]);
    }
  }

  /** The kinds of configuration file `__read_config` knows. */
  datatype ConfigType = Json

  /** The top-level entries of a decoded configuration; only its emptiness is inspected. */
  type Document = map<string, string>

  /** `JsonConfig.__read_config(path, config_type)`. Without a type, the type is guessed
      from the trimmed, lower-cased path; with no guess `config_type.value` raises
      AttributeError. `load` is `json.load` of the opened file, None when that fails. */
  function ReadConfig(path: string, configType: Option<ConfigType>, load: string -> Option<Document>): (r: Result<Document>)
    ensures configType.None? && !EndsWith(Norm(path), "json") ==> r == Err(AttributeError)
    ensures r.Ok? ==> load(path) == Some(r.value)
    ensures (configType.Some? || EndsWith(Norm(path), "json")) && load(path).None? ==> r == Err(InvalidConfigError)
  {
    var guessed := if configType.None? && EndsWith(Norm(path), "json") then Some(Json) else configType;
    match guessed
    case None => Err(AttributeError)
    case Some(Json) =>
      match load(path)
      case None => Err(InvalidConfigError)
      case Some(d) => Ok(d)
  }

  /** A `JsonConfig` once constructed: the absolute path and the decoded configuration. */
  datatype JsonConfig = JsonConfig(configPath: string, config: Document)

  /** `JsonConfig(config_path)`: a falsy path raises NullValueError, an unreadable file
      InvalidConfigError, and so does an empty configuration. */
  function NewJsonConfig(cwd: string, configPath: Option<string>, load: string -> Option<Document>): (r: Result<JsonConfig>)
    ensures configPath.None? || configPath == Some("") ==> r == Err(NullValueError)
    ensures r.Ok? ==> (configPath.Some? && r.value.configPath == AbsPath(cwd, configPath.value)
                       && load(r.value.configPath) == Some(r.value.config) && r.value.config != map[])
    ensures r.Ok? ==> EndsWith(Norm(AbsPath(cwd, configPath.value)), "json")
  {
    if configPath.None? || configPath.value == [] then Err(NullValueError)
    else
      var p := AbsPath(cwd, configPath.value);
      match ReadConfig(p, None, load)
      case Err(e) => Err(e)
      case Ok(d) => if d == map[] then Err(InvalidConfigError) else Ok(JsonConfig(p, d))
  }

  /** Index just past the last '/' of `p`, or 0 when there is none. */
  function LastSlashEnd(p: string): (i: nat)
    ensures i <= |p|
    ensures i > 0 ==> p[i - 1] == '/'
    ensures forall j :: i <= j < |p| ==> p[j] != '/'
  {
    if p == [] then 0
    else if p[|p| - 1] == '/' then |p|
    else LastSlashEnd(p[..|p| - 1])
  }

  predicate AllSlashes(s: string) {
    forall i :: 0 <= i < |s| ==> s[i] == '/'
  }

  function TrimSlashesRight(s: string): string {
    if s != [] && s[|s| - 1] == '/' then TrimSlashesRight(s[..|s| - 1]) else s
  }

  /** `os.path.dirname(p)`: up to the last '/', with trailing slashes removed unless the
      head is made only of slashes. */
  function DirName(p: string): string {
    var head := p[..LastSlashEnd(p)];
    if head != [] && !AllSlashes(head) then TrimSlashesRight(head) else head
  }

  /** `get_this_config_path()` */
  function GetThisConfigPath(c: JsonConfig): string {
    DirName(c.configPath)
  }

  /** `get_path(path)`: the path joined onto the configuration file's directory. */
  function GetPath(c: JsonConfig, path: string): string {
    PathJoin(GetThisConfigPath(c), path)
  }

  /** A directory name is empty, made only of slashes, or does not end with a slash. */
  lemma DirNameShape(p: string)
    ensures var d := DirName(p); d == [] || AllSlashes(d) || !EndsWith(d, "/")
  {
    var head := p[..LastSlashEnd(p)];
    if head != [] && !AllSlashes(head) {
      TrimSlashesRightShape(head);
    }
  }

  lemma TrimSlashesRightShape(s: string)
    requires !AllSlashes(s)
    ensures var t := TrimSlashesRight(s); t != [] && !EndsWith(t, "/")
  {
    if s != [] && s[|s| - 1] == '/' {
      var k :| 0 <= k < |s| && s[k] != '/';
      assert s[..|s| - 1][k] != '/';
      TrimSlashesRightShape(s[..|s| - 1]);
    }
  }

  /** A single path component joined onto a directory name lies in that directory. */
  lemma DirNameOfJoin(d: string, name: string)
    requires d == [] || AllSlashes(d) || !EndsWith(d, "/")
    requires IndexOf(name, '/') == |name|
    ensures DirName(PathJoin(d, name)) == d
  {
    NoSlashIn(name);
    StartsWithChar(name, '/');
    if d == [] {
      DirNameOfJoinEmpty(name);
    } else if AllSlashes(d) {
      DirNameOfJoinSlashes(d, name);
    } else {
      DirNameOfJoinPlain(d, name);
    }
  }

  lemma DirNameOfJoinEmpty(name: string)
    requires !StartsWith(name, "/")
    requires forall j :: 0 <= j < |name| ==> name[j] != '/'
    ensures DirName(PathJoin([], name)) == []
  {
    assert PathJoin([], name) == name;
    LastSlashEndNone(name);
  }

  lemma DirNameOfJoinSlashes(d: string, name: string)
    requires d != [] && AllSlashes(d) && !StartsWith(name, "/")
    requires forall j :: 0 <= j < |name| ==> name[j] != '/'
    ensures DirName(PathJoin(d, name)) == d
  {
    assert EndsWith(d, "/") by { assert d[|d| - 1..] == [d[|d| - 1]]; }
    var p := d + name;
    assert PathJoin(d, name) == p;
    LastSlashEndSuffix(d, name);
    assert p[..|d|] == d;
  }

  lemma DirNameOfJoinPlain(d: string, name: string)
    requires d != [] && !AllSlashes(d) && !EndsWith(d, "/") && !StartsWith(name, "/")
    requires forall j :: 0 <= j < |name| ==> name[j] != '/'
    ensures DirName(PathJoin(d, name)) == d
  {
    var h := d + "/";
    var p := h + name;
    assert PathJoin(d, name) == p;
    LastSlashEndSuffix(h, name);
    assert p[..|h|] == h;
    assert !AllSlashes(h) by {
      var k :| 0 <= k < |d| && d[k] != '/';
      assert h[k] != '/';
    }
    assert h[..|d|] == d;
    assert d[|d| - 1] != '/' by { assert d[|d| - 1..] == [d[|d| - 1]]; }
    assert TrimSlashesRight(h) == TrimSlashesRight(d);
  }

  lemma NoSlashIn(name: string)
    requires IndexOf(name, '/') == |name|
    ensures forall j :: 0 <= j < |name| ==> name[j] != '/'
  {
    IndexOfFirst(name, '/');
  }

  lemma LastSlashEndNone(s: string)
    requires forall j :: 0 <= j < |s| ==> s[j] != '/'
    ensures LastSlashEnd(s) == 0
  {
  }

  lemma {:induction false} LastSlashEndSuffix(a: string, b: string)
    requires a != [] && a[|a| - 1] == '/'
    requires forall j :: 0 <= j < |b| ==> b[j] != '/'
    ensures LastSlashEnd(a + b) == |a|
    decreases |b|
  {
    if b == [] {
      assert a + b == a;
    } else {
      DropLastOfAppend(a, b);
      LastSlashEndSuffix(a, b[..|b| - 1]);
    }
  }

  /** A file name resolved by `get_path` sits in the configuration file's own directory. */
  lemma GetPathInConfigDirectory(c: JsonConfig, name: string)
    requires IndexOf(name, '/') == |name|
    ensures DirName(GetPath(c, name)) == GetThisConfigPath(c)
  {
    DirNameShape(c.configPath);
    DirNameOfJoin(GetThisConfigPath(c), name);
  }

  /** An absolute path is not relative to anything: `get_path` returns it unchanged. */
  lemma GetPathAbsolute(c: JsonConfig, path: string)
    requires StartsWith(path, "/")
    ensures GetPath(c, path) == path
  {
  }
}
