/** The few pieces of JavaScript semantics the manager screens rely on:
    values that may be `null`/`undefined`, truthiness of an id held in state,
    and `String.prototype.trim`. */
module Js {

  /** A value that may be missing: `null` or `undefined` in the screens, both falsy. */
  datatype Option<+T> = None | Some(value: T)

  /** `if (editId)` on an id held in state: `null` and the number 0 are falsy. */
  predicate Truthy(id: Option<int>)
  {
    id.Some? && id.value != 0
  }

  /** The code points ECMAScript's `trim` removes: the WhiteSpace and
      LineTerminator productions (tab, vertical tab, form feed, space, no-break
      space, byte order mark, the space separators, line feed, carriage return,
      line and paragraph separators). */
  predicate IsWhiteSpace(c: char)
  {
    var n := c as int;
    n == 0x09 || n == 0x0A || n == 0x0B || n == 0x0C || n == 0x0D || n == 0x20 ||
    n == 0xA0 || n == 0x1680 || (0x2000 <= n <= 0x200A) || n == 0x2028 || n == 0x2029 ||
    n == 0x202F || n == 0x205F || n == 0x3000 || n == 0xFEFF
  }

  /** Every character of `s` is white space (vacuously so for ""). */
  predicate AllWhiteSpace(s: string)
  {
    forall i :: 0 <= i < |s| ==> IsWhiteSpace(s[i])
  }

  /** Drops the leading white space. */
  function TrimStart(s: string): (r: string)
    ensures |r| <= |s| && r == s[|s| - |r|..]
    ensures AllWhiteSpace(s[..|s| - |r|])
    ensures r == [] || !IsWhiteSpace(r[0])
  {
    if s == [] || !IsWhiteSpace(s[0]) then s
    else
      var t := TrimStart(s[1..]);
      SpaceThenSuffix(s, t);
      t
  }

  /** A white-space character followed by white space and then `t` is white
      space followed by `t`. */
  lemma SpaceThenSuffix(s: string, t: string)
    requires s != [] && IsWhiteSpace(s[0])
    requires |t| <= |s| - 1 && t == s[1..][|s| - 1 - |t|..] && AllWhiteSpace(s[1..][..|s| - 1 - |t|])
    ensures t == s[|s| - |t|..] && AllWhiteSpace(s[..|s| - |t|])
  {
    assert forall i :: 1 <= i < |s| - |t| ==> s[i] == s[1..][i - 1];
  }

  /** Drops the trailing white space. */
  function TrimEnd(s: string): (r: string)
    ensures |r| <= |s| && r == s[..|r|]
    ensures AllWhiteSpace(s[|r|..])
    ensures r == [] || !IsWhiteSpace(r[|r| - 1])
  {
    if s == [] || !IsWhiteSpace(s[|s| - 1]) then s
    else
      var t := TrimEnd(s[..|s| - 1]);
      PrefixThenSpace(s, t);
      t
  }

  /** `t` followed by white space and then a white-space character is `t`
      followed by white space. */
  lemma PrefixThenSpace(s: string, t: string)
    requires s != [] && IsWhiteSpace(s[|s| - 1])
    requires |t| <= |s| - 1 && t == s[..|s| - 1][..|t|] && AllWhiteSpace(s[..|s| - 1][|t|..])
    ensures t == s[..|t|] && AllWhiteSpace(s[|t|..])
  {
    assert forall i :: |t| <= i < |s| - 1 ==> s[i] == s[..|s| - 1][i];
  }

  /** `s.trim()`. */
  function Trim(s: string): string
  {
    TrimEnd(TrimStart(s))
  }

  /** `r` neither starts nor ends with white space. */
  predicate NoOuterWhiteSpace(r: string)
  {
    r == [] || (!IsWhiteSpace(r[0]) && !IsWhiteSpace(r[|r| - 1]))
  }

  /** `r` is a slice of `s` with only white space before and after it. */
  predicate IsInnerSlice(s: string, r: string)
  {
    exists lead :: 0 <= lead <= |s| - |r| && r == s[lead..lead + |r|] &&
      AllWhiteSpace(s[..lead]) && AllWhiteSpace(s[lead + |r|..])
  }

  /** `s.trim()` is the slice of `s` left once the white space at both ends
      is dropped: white space before it and after it, and none at either of
      its own ends. */
  lemma TrimIsInnerSlice(s: string)
    ensures IsInnerSlice(s, Trim(s)) && NoOuterWhiteSpace(Trim(s))
  {
    TrimmedSlice(s, TrimStart(s), Trim(s));
  }

  /** A suffix `t` of `s` after white space, cut before white space, is a
      slice of `s` with white space on both sides and at neither end. */
  lemma TrimmedSlice(s: string, t: string, r: string)
    requires |t| <= |s| && t == s[|s| - |t|..] && AllWhiteSpace(s[..|s| - |t|])
    requires t == [] || !IsWhiteSpace(t[0])
    requires |r| <= |t| && r == t[..|r|] && AllWhiteSpace(t[|r|..])
    requires r == [] || !IsWhiteSpace(r[|r| - 1])
    ensures IsInnerSlice(s, r) && NoOuterWhiteSpace(r)
  {
    var lead := |s| - |t|;
    assert s[lead + |r|..] == t[|r|..];
    assert r == s[lead..lead + |r|];
  }

  /** The guard every form applies to its required text field, `!s.trim()`:
      the field is empty or holds only white space. `TrimEmptyIffBlank`
      shows this is exactly "trimming leaves the empty string". */
  predicate Blank(s: string)
  {
    AllWhiteSpace(s)
  }

  /** `s.trim()` is the empty (falsy) string exactly when `s` is blank. */
  lemma TrimEmptyIffBlank(s: string)
    ensures Trim(s) == "" <==> Blank(s)
  {
  }
}
