/**
 * The static helpers of `StringUtil`: boolean parsing, null-or-blank tests,
 * trimmed case-insensitive comparison, list lookups and the money pattern.
 * A Python value that may be `None` is an `Option<string>`.
 */
module StringUtil {
  import opened Wrappers
  import opened PyStr

  predicate IsDigit(c: char) {
    '0' <= c <= '9'
  }

  /** `str.isnumeric()`, for ASCII digits. */
  predicate IsNumeric(s: string) {
    s != [] && forall i :: 0 <= i < |s| ==> IsDigit(s[i])
  }

  function DigitValue(c: char): (d: nat)
    requires IsDigit(c)
    ensures d < 10
  {
    c as int - '0' as int
  }

  /** `int(s)` for a string of ASCII digits. */
  function DigitsValue(s: string): (n: nat)
    requires forall i :: 0 <= i < |s| ==> IsDigit(s[i])
  {
    if s == [] then 0 else DigitsValue(s[..|s| - 1]) * 10 + DigitValue(s[|s| - 1])
  }

  /** A single digit is numeric, with its own value. */
  lemma OneDigit(c: char)
    requires IsDigit(c)
    ensures IsNumeric([c]) && DigitsValue([c]) == DigitValue(c)
  {
    assert [c][..0] == [];
  }

  /** Two digits are numeric, the first counting ten times. */
  lemma TwoDigits(c: char, d: char)
    requires IsDigit(c) && IsDigit(d)
    ensures IsNumeric([c, d]) && DigitsValue([c, d]) == 10 * DigitValue(c) + DigitValue(d)
  {
    assert [c, d][..1] == [c];
    OneDigit(c);
  }

  /** The digit character for `d`. */
  function DigitChar(d: nat): (c: char)
    requires d < 10
    ensures IsDigit(c) && DigitValue(c) == d
  {
    ('0' as int + d) as char
  }

  /** `str(n)` for a non-negative int: its decimal digits without leading zeros. */
  function DecimalString(n: nat): (s: string)
    ensures IsNumeric(s)
    ensures s[0] == '0' ==> n == 0
    decreases n
  {
    if n < 10 then [DigitChar(n)] else DecimalString(n / 10) + [DigitChar(n % 10)]
  }

  /** `int(str(n)) == n`. */
  lemma {:induction false} DecimalStringValue(n: nat)
    ensures DigitsValue(DecimalString(n)) == n
    decreases n
  {
    var s := DecimalString(n);
    if n < 10 {
      assert s[..0] == [];
    } else {
      DecimalStringValue(n / 10);
      assert s[..|s| - 1] == DecimalString(n / 10);
    }
  }

  /** Leading zeros do not change the value of a digit string. */
  lemma {:induction false} DigitsValueLeadingZero(s: string)
    requires forall i :: 0 <= i < |s| ==> IsDigit(s[i])
    ensures DigitsValue("0" + s) == DigitsValue(s)
    decreases |s|
  {
    if s != [] {
      var t := "0" + s;
      assert t[..|t| - 1] == "0" + s[..|s| - 1];
      DigitsValueLeadingZero(s[..|s| - 1]);
    }
  }

  /** `get_boolean_from_string(val)`: a numeric string decides by its value (1, 0, or None
      for any other number), before any trimming; otherwise 'true'/'false' after
      trimming and lower-casing; `None` for everything else. */
  function GetBooleanFromString(val: Option<string>): (r: Option<bool>)
    ensures r == Some(true) <==>
      (IsNumeric(Format(val)) && DigitsValue(Format(val)) == 1) || Norm(Format(val)) == "true"
    ensures r == Some(false) <==>
      (IsNumeric(Format(val)) && DigitsValue(Format(val)) == 0) || Norm(Format(val)) == "false"
  {
    var s := Format(val);
    if IsNumeric(s) then
      NumericIsNormal(s);
      (if DigitsValue(s) == 1 then Some(true) else if DigitsValue(s) == 0 then Some(false) else None)
    else
      var t := Norm(s);
      if t == "true" then Some(true) else if t == "false" then Some(false) else None
  }

  /** A numeric string is its own normal form, so it is never 'true' or 'false'. */
  lemma NumericIsNormal(s: string)
    requires IsNumeric(s)
    ensures Norm(s) == s && s != "true" && s != "false"
  {
    assert !IsDigit('t') && !IsDigit('f');
    NormOfNormal(s);
  }

  /** Any number of leading zeros before the digit 1 or 0 still parses as that boolean. */
  lemma GetBooleanZeroPadded(k: nat, b: bool)
    ensures GetBooleanFromString(Some(seq(k, _ => '0') + (if b then "1" else "0"))) == Some(b)
  {
    ZeroPaddedDigit(k, if b then '1' else '0');
  }

  /** A digit after `k` zeros is numeric and has the digit's value. */
  lemma {:induction false} ZeroPaddedDigit(k: nat, c: char)
    requires IsDigit(c)
    ensures IsNumeric(seq(k, _ => '0') + [c])
    ensures DigitsValue(seq(k, _ => '0') + [c]) == DigitValue(c)
  {
    var s := seq(k, _ => '0') + [c];
    if k == 0 {
      assert s == [c];
      assert s[..0] == [];
    } else {
      var t := seq(k - 1, _ => '0') + [c];
      ZeroPaddedDigit(k - 1, c);
      assert s == "0" + t;
      DigitsValueLeadingZero(t);
    }
  }

  /** The numeric test comes before trimming: " 1" is not numeric, and it is neither
      'true' nor 'false' once trimmed, so it gives None. */
  lemma GetBooleanPaddedDigit()
    ensures GetBooleanFromString(Some(" 1")) == None
  {
    NormOfSpaceDigit('1');
    GetBooleanOfOtherWord(" 1");
  }

  /** A space before a digit is trimmed away, and the pair is not numeric. */
  lemma NormOfSpaceDigit(c: char)
    requires IsDigit(c)
    ensures Norm([' ', c]) == [c] && !IsNumeric([' ', c])
  {
    var s := [' ', c];
    assert !IsDigit(s[0]);
    assert s[1..] == [c];
    assert TrimLeft(s) == [c];
    assert [c][..0] == [];
    assert TrimRight([c]) == [c];
  }

  /** A value that is not numeric and normalises to neither word gives None. */
  lemma GetBooleanOfOtherWord(s: string)
    requires !IsNumeric(s) && |Norm(s)| == 1
    ensures GetBooleanFromString(Some(s)) == None
  {
  }

  /** `isNullOrEmpty(val)`: `None`, "" or whitespace only. */
  predicate IsNullOrEmpty(val: Option<string>) {
    val.None? || IsBlank(val.value)
  }

  /** `isNullOrEmpty` is false exactly for strings with a non-whitespace character. */
  lemma IsNullOrEmptyIff(val: Option<string>)
    ensures !IsNullOrEmpty(val) <==> val.Some? && exists i :: 0 <= i < |val.value| && !IsSpace(val.value[i])
  {
    if val.Some? {
      StripEmptyIffBlank(val.value);
    }
  }

  /** `stripToLower(s)` */
  function StripToLower(s: Option<string>): (r: Option<string>)
    ensures r.None? <==> IsNullOrEmpty(s)
    ensures r.Some? ==> r.value != [] && r.value == Lower(Strip(s.value))
  {
    if IsNullOrEmpty(s) then None else Some(Norm(s.value))
  }

  /** `isStringsEqual(a, b)` */
  function IsStringsEqual(a: Option<string>, b: Option<string>): (r: Option<bool>)
    ensures r.None? <==> IsNullOrEmpty(a) || IsNullOrEmpty(b)
    ensures r.Some? ==> (r.value <==> Norm(a.value) == Norm(b.value))
  {
    if IsNullOrEmpty(a) || IsNullOrEmpty(b) then None
    else Some(StripToLower(a) == StripToLower(b))
  }

  /** The comparison is symmetric. */
  lemma IsStringsEqualSymmetric(a: Option<string>, b: Option<string>)
    ensures IsStringsEqual(a, b) == IsStringsEqual(b, a)
  {
  }

  /** Padding and case do not matter: two texts with whitespace runs of any length
      around them compare equal exactly when the texts agree once lower-cased. */
  lemma IsStringsEqualIgnoresCase(la: string, a: string, ra: string, lb: string, b: string, rb: string)
    requires AllSpace(la) && AllSpace(ra) && AllSpace(lb) && AllSpace(rb)
    requires a != [] && !IsSpace(a[0]) && !IsSpace(a[|a| - 1])
    requires b != [] && !IsSpace(b[0]) && !IsSpace(b[|b| - 1])
    ensures IsStringsEqual(Some(la + a + ra), Some(lb + b + rb)) == Some(Lower(a) == Lower(b))
  {
    StripOfRuns(la, a, ra);
    StripOfRuns(lb, b, rb);
  }

  predicate IsAsciiAlnum(c: char) {
    ('a' <= c <= 'z') || ('A' <= c <= 'Z') || IsDigit(c)
  }

  /** `stripChars(s)`: the pattern `^[a-zA-Z0-9]` removes at most the first character. */
  function StripChars(s: string): (r: string)
    ensures s != [] && IsAsciiAlnum(s[0]) ==> r == s[1..]
    ensures !(s != [] && IsAsciiAlnum(s[0])) ==> r == s
    ensures |s| - 1 <= |r| <= |s| && r == s[|s| - |r|..]
  {
    if s != [] && IsAsciiAlnum(s[0]) then s[1..] else s
  }

  /** The reference meaning of `isAllHaveValues`: a non-empty sequence with no null or blank item. */
  predicate AllHaveValues(s: seq<Option<string>>) {
    |s| > 0 && forall i :: 0 <= i < |s| ==> !IsNullOrEmpty(s[i])
  }

  /** `isAllHaveValues(s)` */
  method IsAllHaveValues(s: seq<Option<string>>) returns (isValid: bool)
    ensures isValid == AllHaveValues(s)
  {
    isValid := false;
    var i := 0;
    while i < |s|
      invariant 0 <= i <= |s|
      invariant forall j :: 0 <= j < i ==> !IsNullOrEmpty(s[j])
      invariant isValid == (i > 0)
    {
      if IsNullOrEmpty(s[i]) {
        isValid := false;
        return;
      }
      isValid := true;
      i := i + 1;
    }
  }

  /** The index-`k` item matches `val` in the sense of `isValInList`. */
  predicate MatchesAt(val: Option<string>, items: seq<Option<string>>, k: int)
    requires 0 <= k < |items|
  {
    StripToLower(items[k]) == StripToLower(val)
  }

  /** `isValInList(val, items)`: true iff some item normalises like `val`; a blank `val`
      therefore matches a blank item, both normalising to `None`. */
  method IsValInList(val: Option<string>, items: seq<Option<string>>) returns (isValid: bool)
    ensures isValid <==> exists k :: 0 <= k < |items| && MatchesAt(val, items, k)
  {
    isValid := false;
    var v := StripToLower(val);
    var i := 0;
    while i < |items|
      invariant 0 <= i <= |items|
      invariant forall j :: 0 <= j < i ==> !MatchesAt(val, items, j)
    {
      var item := StripToLower(items[i]);
      if v == item {
        assert MatchesAt(val, items, i);
        isValid := true;
        return;
      }
      i := i + 1;
    }
  }

  /** `parseTypeFromList(inputType, compareList)`: the first item that normalises like the
      input, or None for a blank input, an empty list or no match. */
  method ParseTypeFromList(inputType: Option<string>, compareList: seq<Option<string>>) returns (itemType: Option<string>)
    ensures IsNullOrEmpty(inputType) || compareList == [] ==> itemType.None?
    ensures itemType.Some? ==> exists k :: (0 <= k < |compareList| && compareList[k] == itemType
      && MatchesAt(inputType, compareList, k) && forall j :: 0 <= j < k ==> !MatchesAt(inputType, compareList, j))
    ensures itemType.None? && !IsNullOrEmpty(inputType) ==>
      forall k :: 0 <= k < |compareList| ==> !MatchesAt(inputType, compareList, k)
  {
    if IsNullOrEmpty(inputType) {
      return None;
    }
    if |compareList| == 0 {
      return None;
    }
    itemType := None;
    var input := StripToLower(inputType);
    var i := 0;
    while i < |compareList|
      invariant 0 <= i <= |compareList|
      invariant forall j :: 0 <= j < i ==> !MatchesAt(inputType, compareList, j)
    {
      var itemCompare := StripToLower(compareList[i]);
      if input == itemCompare {
        assert MatchesAt(inputType, compareList, i);
        itemType := compareList[i];
        return;
      }
      i := i + 1;
    }
  }

  predicate AllDigits(s: string) {
    forall i :: 0 <= i < |s| ==> IsDigit(s[i])
  }

  /** `^\$?(\d*\.\d{1,2})$` once the optional '$' is gone: digits, '.', one or two digits. */
  predicate DecimalAmount(u: string) {
    var i := IndexOf(u, '.');
    i < |u| && AllDigits(u[..i]) && AllDigits(u[i + 1..]) && 1 <= |u| - i - 1 <= 2
  }

  /** `u` without a leading '$' */
  function DropDollar(t: string): string {
    if StartsWith(t, "$") then t[1..] else t
  }

  /** `get_money_from_string(val)`: the amount of the first alternative that matches the
      trimmed, lower-cased value, without the '$'; None for a falsy or non-matching value. */
  function GetMoneyFromString(val: Option<string>): Option<string> {
    if val.None? || val.value == [] then None else MatchMoney(Norm(val.value))
  }

  /** `money_pat.match(t)`: the group of the first alternative that matches all of `t`. */
  function MatchMoney(t: string): Option<string> {
    var u := DropDollar(t);
    if DecimalAmount(u) then Some(u)
    else if IsNumeric(u) then Some(u)
    else if StartsWith(t, "$") && |u| >= 2 && u[|u| - 1] == '.' && IsNumeric(u[..|u| - 1]) then Some(u)
    else None
  }

  /** What comes back is the normalised input with at most its leading '$' removed, and
      it starts with a digit or with the decimal point. */
  lemma MoneyShape(val: Option<string>)
    ensures var r := GetMoneyFromString(val);
      r.Some? ==> (val.Some? && (Norm(val.value) == r.value || Norm(val.value) == "$" + r.value)
                   && r.value != [] && (IsDigit(r.value[0]) || r.value[0] == '.'))
  {
    if val.Some? && val.value != [] {
      var t := Norm(val.value);
      var u := DropDollar(t);
      if StartsWith(t, "$") {
        assert t == "$" + u;
      }
      if DecimalAmount(u) {
        var i := IndexOf(u, '.');
        if i > 0 {
          assert IsDigit(u[..i][0]);
        }
      } else if IsNumeric(u) {
      } else if StartsWith(t, "$") && |u| >= 2 && u[|u| - 1] == '.' && IsNumeric(u[..|u| - 1]) {
        assert IsDigit(u[..|u| - 1][0]);
      }
    }
  }

  /** The digits before and the one or two digits after the point of a decimal amount. */
  predicate CentsParts(a: string, b: string) {
    AllDigits(a) && AllDigits(b) && 1 <= |b| <= 2
  }

  /** The three alternatives of the money pattern, written as concatenations: an optional
      '$', digits, '.', one or two digits; an optional '$' and at least one digit; or '$',
      at least one digit and a trailing '.'. */
  ghost predicate MoneyForm(t: string) {
    (exists a, b :: (t == a + "." + b || t == "$" + a + "." + b) && CentsParts(a, b))
    || (exists a :: (t == a || t == "$" + a) && IsNumeric(a))
    || (exists a :: t == "$" + a + "." && IsNumeric(a))
  }

  /** A falsy value gives None; any other value is accepted exactly when its normal form
      has one of the three money forms, and the group returned is that form without its
      leading '$'. */
  lemma MoneyFormIff(val: Option<string>)
    ensures GetMoneyFromString(val).Some? <==> val.Some? && val.value != [] && MoneyForm(Norm(val.value))
    ensures GetMoneyFromString(val).Some? ==> GetMoneyFromString(val).value == DropDollar(Norm(val.value))
  {
    if val.Some? && val.value != [] {
      var t := Norm(val.value);
      if MoneyForm(t) {
        MatchMoneyOfForm(t);
      }
      if MatchMoney(t).Some? {
        MoneyFormOfMatch(t);
      }
    }
  }

  /** Every money form matches, with its group. */
  lemma MatchMoneyOfForm(t: string)
    requires MoneyForm(t)
    ensures MatchMoney(t) == Some(DropDollar(t))
  {
    if (exists a, b :: (t == a + "." + b || t == "$" + a + "." + b) && CentsParts(a, b)) {
      var a, b :| (t == a + "." + b || t == "$" + a + "." + b) && CentsParts(a, b);
      MatchCents(t, a, b);
    } else if exists a :: (t == a || t == "$" + a) && IsNumeric(a) {
      var a :| (t == a || t == "$" + a) && IsNumeric(a);
      MatchWhole(t, a);
    } else {
      var a :| t == "$" + a + "." && IsNumeric(a);
      MatchTrailingPoint(t, a);
    }
  }

  /** The first alternative. */
  lemma MatchCents(t: string, a: string, b: string)
    requires (t == a + "." + b || t == "$" + a + "." + b) && CentsParts(a, b)
    ensures MatchMoney(t) == Some(a + "." + b) && DropDollar(t) == a + "." + b
  {
    if t == "$" + a + "." + b {
      assert t == "$" + (a + "." + b);
    }
    if a != [] {
      assert (a + "." + b)[0] == a[0] && IsDigit(a[0]);
    }
    DollarFree(t, a + "." + b);
    DecimalAmountOfParts(a, b);
  }

  /** The second alternative: it is reached only when the first fails, and then matches. */
  lemma MatchWhole(t: string, a: string)
    requires (t == a || t == "$" + a) && IsNumeric(a)
    ensures MatchMoney(t) == Some(a) && DropDollar(t) == a
  {
    assert IsDigit(a[0]);
    DollarFree(t, a);
  }

  /** The third alternative: the first two fail on the trailing point, and it matches. */
  lemma MatchTrailingPoint(t: string, a: string)
    requires t == "$" + a + "." && IsNumeric(a)
    ensures MatchMoney(t) == Some(a + ".") && DropDollar(t) == a + "."
  {
    var u := a + ".";
    assert t == "$" + u;
    assert IsDigit(a[0]) && u[0] == a[0];
    DollarFree(t, u);
    assert u[..|a|] == a;
    DigitsHaveNoPoint(a);
    IndexOfPrefix(a, ".", '.');
    assert !AllDigits(u[|a|..]) by { assert u[|a|..][0] == '.'; }
    assert !IsNumeric(u) by { assert u[|a|] == '.'; }
  }

  /** Whatever matches is a money form, and the group is the match without its '$'. */
  lemma MoneyFormOfMatch(t: string)
    requires MatchMoney(t).Some?
    ensures MoneyForm(t) && MatchMoney(t).value == DropDollar(t)
  {
    var u := DropDollar(t);
    DropDollarSplit(t);
    assert t == u || t == "$" + u;
    if DecimalAmount(u) {
      CentsFormOfDecimal(t, u);
    } else if IsNumeric(u) {
      assert (t == u || t == "$" + u) && IsNumeric(u);
    } else {
      var a := u[..|u| - 1];
      assert u == a + ".";
      assert t == "$" + a + "." && IsNumeric(a);
    }
  }

  /** A decimal amount behind an optional '$' is the first money form. */
  lemma CentsFormOfDecimal(t: string, u: string)
    requires (t == u || t == "$" + u) && DecimalAmount(u)
    ensures exists a, b :: (t == a + "." + b || t == "$" + a + "." + b) && CentsParts(a, b)
  {
    var i := IndexOf(u, '.');
    var a, b := u[..i], u[i + 1..];
    assert u == a + "." + b && CentsParts(a, b);
    assert t == a + "." + b || t == "$" + a + "." + b;
  }

  /** `t` is `u` with at most a leading '$' in front. */
  lemma DropDollarSplit(t: string)
    ensures StartsWith(t, "$") ==> t == "$" + DropDollar(t)
    ensures !StartsWith(t, "$") ==> t == DropDollar(t)
  {
  }

  /** When `t` is `$x` or `x` and `x` starts with a digit or '.', dropping the '$' gives `x`. */
  lemma DollarFree(t: string, x: string)
    requires t == x || t == "$" + x
    requires x != [] ==> x[0] != '$'
    ensures DropDollar(t) == x && (StartsWith(t, "$") <==> t == "$" + x)
  {
    if t == "$" + x {
      assert t[..1] == "$";
    }
  }

  /** A run of digits holds no '.'. */
  lemma DigitsHaveNoPoint(a: string)
    requires AllDigits(a)
    ensures IndexOf(a, '.') == |a|
  {
    assert '.' !in a by {
      forall j | 0 <= j < |a| ensures a[j] != '.' {
        assert IsDigit(a[j]);
      }
    }
    IndexOfAbsent(a, '.');
  }

  /** Digits, '.', and one or two digits make a decimal amount whose first '.' is that one. */
  lemma DecimalAmountOfParts(a: string, b: string)
    requires CentsParts(a, b)
    ensures DecimalAmount(a + "." + b)
  {
    var u := a + "." + b;
    DigitsHaveNoPoint(a);
    assert u == a + ("." + b);
    IndexOfPrefix(a, "." + b, '.');
    assert IndexOf(u, '.') == |a|;
    assert u[..|a|] == a && u[|a| + 1..] == b;
  }

  /** A string without surrounding whitespace or upper-case letters is its own normal form. */
  lemma NormOfNormal(s: string)
    requires s != [] ==> !IsSpace(s[0]) && !IsSpace(s[|s| - 1])
    requires forall i :: 0 <= i < |s| ==> !('A' <= s[i] <= 'Z')
    ensures Norm(s) == s
  {
    StripOfStripped(s);
    LowerOfLower(s);
  }

  lemma {:induction false} LowerOfLower(s: string)
    requires forall i :: 0 <= i < |s| ==> !('A' <= s[i] <= 'Z')
    ensures Lower(s) == s
  {
    if s != [] {
      LowerOfLower(s[..|s| - 1]);
    }
  }

  /** A dollar amount with cents is accepted and returned without the '$'. */
  lemma MoneyWithCents()
    ensures GetMoneyFromString(Some("$1.50")) == Some("1.50")
  {
    NormOfNormal("$1.50");
    assert DropDollar("$1.50") == "1.50";
    assert IndexOf("1.50", '.') == 1;
  }

  /** '$5.' is accepted only by the third alternative and keeps its trailing point. */
  lemma MoneyTrailingPoint()
    ensures GetMoneyFromString(Some("$5.")) == Some("5.")
  {
    NormOfNormal("$5.");
    assert DropDollar("$5.") == "5.";
    assert IndexOf("5.", '.') == 1;
    assert !IsNumeric("5.") by { assert !IsDigit("5."[1]); }
    assert "5."[..1] == "5";
  }

  /** A thousands separator matches none of the alternatives. */
  lemma MoneyRejectsSeparator()
    ensures GetMoneyFromString(Some("1,000")) == None
  {
    var s := "1,000";
    NormOfNormal(s);
    assert s[0] != '$' && '.' !in s;
    assert !IsNumeric(s) by { assert !IsDigit(s[1]); }
    MoneyRejectsWithoutPoint(s);
  }

  /** A normalised value with neither a leading '$' nor a '.' is accepted only when it is
      all digits. */
  lemma MoneyRejectsWithoutPoint(s: string)
    requires s != [] && Norm(s) == s && s[0] != '$' && '.' !in s && !IsNumeric(s)
    ensures GetMoneyFromString(Some(s)) == None
  {
    assert !StartsWith(s, "$");
    IndexOfAbsent(s, '.');
  }
}
