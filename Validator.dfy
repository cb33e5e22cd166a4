/**
 * `Validator`: the logging-level test, the file test and the IP-address test.
 * The filesystem (`os.path.exists`, `os.path.isfile`) and `socket.inet_aton`
 * are oracles passed in as parameters.
 */
module Validator {
  import opened Wrappers
  import opened PyStr
  import StringUtil

  /** `is_logging_level(level)`: the six levels of Python's `logging` module. */
  predicate IsLoggingLevel(level: int) {
    level in {0, 10, 20, 30, 40, 50}
  }

  /** The valid levels are exactly the multiples of ten from NOTSET (0) to CRITICAL (50). */
  lemma IsLoggingLevelIff(level: int)
    ensures IsLoggingLevel(level) <==> 0 <= level <= 50 && level % 10 == 0
  {
    if 0 <= level <= 50 && level % 10 == 0 {
      assert level / 10 * 10 == level;
      assert level / 10 in {0, 1, 2, 3, 4, 5};
    }
  }

  /** What `validExtensions` may be: a list of extensions or a single string. */
  datatype Extensions = ExtensionList(items: seq<string>) | ExtensionText(text: string)

  /** `StringUtil.getFileExtension(name)` for a name that is a file: the text after the
      last '.' of the last path component. */
  function FileExtension(name: string): string {
    var parts := SplitOn(Tail(name), '.');
    parts[|parts| - 1]
  }

  /** `isValidFile(filePath, validExtensions)`. The extension is taken from
      `validExtensions` itself, not from `filePath`; a list is not a path, so a non-empty
      list makes `os.path.isfile` raise TypeError, and a string that is not a file makes
      `getFileExtension` return None, which `in` on a string rejects with TypeError. */
  function IsValidFile(filePath: Option<string>, validExtensions: Extensions,
                       pathExists: string -> bool, isFile: string -> bool): (r: Result<bool>)
    ensures StringUtil.IsNullOrEmpty(filePath) ==> r == Ok(false)
    ensures !StringUtil.IsNullOrEmpty(filePath) && !pathExists(filePath.value) ==> r == Ok(false)
    ensures r == Ok(true) ==>
      validExtensions.ExtensionText? && isFile(validExtensions.text)
      && Contains(validExtensions.text, FileExtension(validExtensions.text))
  {
    if StringUtil.IsNullOrEmpty(filePath) then Ok(false)
    else if !pathExists(filePath.value) then Ok(false)
    else match validExtensions
      case ExtensionList(items) =>
        if items == [] then Ok(false)  // getFileExtension gives None, and None is not in []
        else Err(TypeError)
      case ExtensionText(text) =>
        if text == [] || !isFile(text) then Err(TypeError)
        else Ok(Contains(text, FileExtension(text)))
  }

  /** Past the two early returns the answer does not depend on which file was named. */
  lemma IsValidFileIgnoresPath(p: string, q: string, validExtensions: Extensions,
                               pathExists: string -> bool, isFile: string -> bool)
    requires !IsBlank(p) && !IsBlank(q) && pathExists(p) && pathExists(q)
    ensures IsValidFile(Some(p), validExtensions, pathExists, isFile)
         == IsValidFile(Some(q), validExtensions, pathExists, isFile)
  {
  }

  /** A single extension string that is a file always contains its own extension. */
  lemma IsValidFileTextIsFile(p: string, text: string, pathExists: string -> bool, isFile: string -> bool)
    requires !IsBlank(p) && pathExists(p) && text != [] && isFile(text)
    ensures IsValidFile(Some(p), ExtensionText(text), pathExists, isFile) == Ok(true)
  {
    ExtensionContained(text);
  }

  /** A name contains its own extension: the extension ends the last component, which
      ends the name. */
  lemma ExtensionContained(text: string)
    ensures Contains(text, FileExtension(text))
  {
    TailIsSuffix(text);
    ExtensionEndsTail(text);
    SuffixContained(text, Tail(text), FileExtension(text));
  }

  /** The extension ends the last path component. */
  lemma ExtensionEndsTail(text: string)
    ensures EndsWith(Tail(text), FileExtension(text))
  {
    SplitOnLastIsSuffix(Tail(text), '.');
  }

  lemma SplitOnLastIsSuffix(s: string, c: char)
    ensures var parts := SplitOn(s, c); EndsWith(s, parts[|parts| - 1])
    decreases |s|
  {
    var i := IndexOf(s, c);
    if i < |s| {
      SplitOnLastIsSuffix(s[i + 1..], c);
    }
  }

  lemma {:induction false} TailIsSuffix(p: string)
    ensures EndsWith(p, Tail(p))
    decreases |p|
  {
    if p != [] && p[|p| - 1] != '/' {
      var init := p[..|p| - 1];
      TailIsSuffix(init);
      var t := Tail(init);
      assert p == init + [p[|p| - 1]];
      assert init[|init| - |t|..] == t;
      assert p[|p| - |t| - 1..] == init[|init| - |t|..] + [p[|p| - 1]];
    }
  }

  /** A suffix of a suffix is contained in the whole. */
  lemma SuffixContained(s: string, m: string, t: string)
    requires EndsWith(s, m) && EndsWith(m, t)
    ensures Contains(s, t)
  {
    var k := |s| - |t|;
    assert s == s[..k] + t;
    assert Contains(t, t);
    ContainsAppend(s[..k], t, t);
  }

  /** `is_valid_ip_address(ip)`: False for an empty or missing address, otherwise whatever
      `socket.inet_aton` accepts. */
  function IsValidIpAddress(ip: Option<string>, inetAton: string -> bool): (r: bool)
    ensures r <==> ip.Some? && ip.value != [] && inetAton(ip.value)
  {
    ip.Some? && ip.value != [] && inetAton(ip.value)
  }
}
