/** Option and Result values, and the Python exception kinds the modelled code raises. */
module Wrappers {

  /** Python's `None`-or-value, for arguments and fields that may hold `None`. */
  datatype Option<+T> = None | Some(value: T)

  /** The exception classes that can leave the modelled operations. */
  datatype Exception =
    | ValueError
    | TypeError
    | NotImplementedError
    | AttributeError
    | IndexError
    | NameError
    | NullValueError
    | InvalidConfigError
    | FileNotFoundError
    | CalledProcessError(cmd: seq<string>)  // a subprocess that exited non-zero
    | SystemExit(code: int)                 // `exit(1)`

  /** A value, or the exception that was raised instead. */
  datatype Result<+T> = Ok(value: T) | Err(error: Exception)

  /** Outcome of a procedure that returns nothing on success. */
  type Outcome = Result<()>

  /** A set-once field's new value: the written value, but only while nothing is stored. */
  function SetOnce<T>(cur: Option<T>, val: Option<T>): Option<T> {
    if cur.None? && val.Some? then val else cur
  }

  /** Once a set-once field holds a value, no later write changes it; until then a
      value is taken as written and a falsy write is ignored. */
  lemma SetOnceStable<T>(cur: Option<T>, val: Option<T>, later: Option<T>)
    ensures cur.Some? ==> SetOnce(cur, val) == cur
    ensures cur.None? ==> SetOnce(cur, val) == val
    ensures SetOnce(cur, val).Some? ==> SetOnce(SetOnce(cur, val), later) == SetOnce(cur, val)
  {
  }

  /** Extending a slice by one element; proved once here, where the element type carries no
      facts of its own. */
  lemma SliceSnoc<T>(s: seq<T>, a: nat, b: nat)
    requires a <= b < |s|
    ensures s[a..b + 1] == s[a..b] + [s[b]]
  {
  }

  /** Dropping a prefix of the first part of a three-part concatenation, or all of the
      first two parts. */
  lemma DropFromThree<T>(a: seq<T>, m: seq<T>, b: seq<T>, k: nat)
    requires k <= |a|
    ensures a + m + b == a + (m + b)
    ensures (a + m + b)[k..] == a[k..] + m + b
    ensures (a + m + b)[|a| + |m|..] == b
  {
  }

  /** The last element of a concatenation with a non-empty second part, and what precedes
      it. */
  lemma DropLastOfAppend<T>(a: seq<T>, b: seq<T>)
    requires b != []
    ensures (a + b)[..|a + b| - 1] == a + b[..|b| - 1]
    ensures (a + b)[|a + b| - 1] == b[|b| - 1]
  {
  }

  /** The first element of a concatenation with a non-empty first part, and what follows
      it. */
  lemma DropFirstOfAppend<T>(a: seq<T>, b: seq<T>)
    requires a != []
    ensures (a + b)[0] == a[0] && (a + b)[1..] == a[1..] + b
  {
  }

  /** Moving the brackets of a three-part concatenation, proved once here for the same
      reason. */
  lemma Assoc<T>(a: seq<T>, b: seq<T>, c: seq<T>)
    ensures (a + b) + c == a + (b + c)
  {
  }

  /** A prefix stays a prefix when more is appended. */
  lemma PrefixExtends<T>(p: seq<T>, s: seq<T>, t: seq<T>)
    requires p <= s
    ensures p <= s + t
  {
    assert (s + t)[..|p|] == s[..|p|];
  }

  /** A sequence is its prefix followed by the rest. */
  lemma PrefixSplit<T>(p: seq<T>, s: seq<T>)
    requires p <= s
    ensures s == p + s[|p|..]
  {
  }

  /** A sequence is what comes before position `k`, the element there, and what follows. */
  lemma SplitAt<T>(s: seq<T>, k: nat)
    requires k < |s|
    ensures s == s[..k] + [s[k]] + s[k + 1..]
  {
  }

  /** The first two elements of a sequence with at least two. */
  lemma TakeTwo<T>(s: seq<T>)
    requires |s| >= 2
    ensures s[..2] == [s[0], s[1]]
  {
  }
}
