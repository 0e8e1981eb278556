/**
 * The few JavaScript string operations the modelled code relies on:
 * the `\s` character class, `toLowerCase` on ASCII letters,
 * `String.prototype.replace` with a string pattern (first occurrence
 * only), `Array.prototype.join` and the truthiness of an optional
 * string.
 */
module JsText {
  import opened Wrappers

  /**
   * The characters an ECMAScript `\s` matches: WhiteSpace (tab, vertical
   * tab, form feed, space, no-break space, the byte order mark and the
   * Unicode space separators) and LineTerminator (line feed, carriage
   * return, line and paragraph separators). `parseInt` trims the same set.
   */
  predicate IsJsSpace(c: char) {
    || c == '\t' || c == '\n' || c == '\U{000B}' || c == '\U{000C}' || c == '\r'
    || c == ' ' || c == '\U{00A0}' || c == '\U{1680}'
    || ('\U{2000}' <= c <= '\U{200A}')
    || c == '\U{2028}' || c == '\U{2029}' || c == '\U{202F}' || c == '\U{205F}'
    || c == '\U{3000}' || c == '\U{FEFF}'
  }

  /** A string value is truthy in JavaScript iff it is present and non-empty. */
  predicate Truthy(s: Option<string>) {
    s.Some? && s.value != ""
  }

  /** `toLowerCase` on one character, for the ASCII letters. */
  function LowerChar(c: char): (r: char)
    ensures 'A' <= c <= 'Z' ==> r as int == c as int + 32
    ensures !('A' <= c <= 'Z') ==> r == c
  {
    if 'A' <= c <= 'Z' then (c as int + 32) as char else c
  }

  /** `toLowerCase` on a string, character by character. */
  function Lower(s: string): (r: string)
    ensures |r| == |s|
    ensures forall i :: 0 <= i < |s| ==> r[i] == LowerChar(s[i])
  {
    seq(|s|, i requires 0 <= i < |s| => LowerChar(s[i]))
  }

  /** `keys.join('')`: the concatenation of the strings in order. */
  function Concat(keys: seq<string>): (r: string)
    ensures keys == [] ==> r == ""
  {
    if keys == [] then "" else Concat(keys[..|keys| - 1]) + keys[|keys| - 1]
  }

  lemma {:induction false} ConcatAppend(keys: seq<string>, k: string)
    ensures Concat(keys + [k]) == Concat(keys) + k
  {
    assert (keys + [k])[..|keys|] == keys;
  }

  /** `parts.join(sep)`: the parts in order with `sep` between neighbours. */
  function Join(parts: seq<string>, sep: string): (r: string)
    ensures parts == [] ==> r == ""
    ensures |parts| == 1 ==> r == parts[0]
  {
    if parts == [] then ""
    else if |parts| == 1 then parts[0]
    else Join(parts[..|parts| - 1], sep) + sep + parts[|parts| - 1]
  }

  /** Joining with the empty separator is concatenation. */
  lemma {:induction false} JoinWithoutSeparator(parts: seq<string>)
    ensures Join(parts, "") == Concat(parts)
  {
    if |parts| == 1 {
      assert parts[..0] == [];
    } else if |parts| > 1 {
      JoinWithoutSeparator(parts[..|parts| - 1]);
    }
  }

  /** Joining a non-empty list behind a first part puts one separator between. */
  lemma {:induction false} JoinCons(first: string, rest: seq<string>, sep: string)
    requires rest != []
    ensures Join([first] + rest, sep) == first + sep + Join(rest, sep)
    decreases |rest|
  {
    var all := [first] + rest;
    if |rest| == 1 {
      assert all[..1] == [first];
    } else {
      assert all[..|all| - 1] == [first] + rest[..|rest| - 1];
      JoinCons(first, rest[..|rest| - 1], sep);
    }
  }

  /** `pat` occurs in `s` starting at index `k`. */
  predicate OccursAt(s: string, pat: string, k: nat) {
    k + |pat| <= |s| && s[k..k + |pat|] == pat
  }

  /** The first index at or after `from` where `pat` occurs in `s`. */
  function IndexFrom(s: string, pat: string, from: nat): (r: Option<nat>)
    decreases |s| - from
    ensures r.Some? ==> from <= r.value && OccursAt(s, pat, r.value)
    ensures r.Some? ==> forall k :: from <= k < r.value ==> !OccursAt(s, pat, k)
    ensures r.None? ==> forall k :: from <= k ==> !OccursAt(s, pat, k)
  {
    if from + |pat| > |s| then None
    else if s[from..from + |pat|] == pat then Some(from)
    else IndexFrom(s, pat, from + 1)
  }

  /** `s.indexOf(pat)`: the first occurrence, if there is one. */
  function IndexOf(s: string, pat: string): Option<nat> {
    IndexFrom(s, pat, 0)
  }

  /**
   * `s.replace(pat, rep)` with a string pattern: only the FIRST occurrence
   * of `pat` is replaced; without one, `s` is returned unchanged.
   */
  function ReplaceFirst(s: string, pat: string, rep: string): (r: string)
    ensures IndexOf(s, pat).None? ==> r == s
    ensures IndexOf(s, pat).Some? ==>
      var k := IndexOf(s, pat).value;
      r == s[..k] + rep + s[k + |pat|..]
  {
    match IndexOf(s, pat)
    case None => s
    case Some(k) => s[..k] + rep + s[k + |pat|..]
  }

  /** Replacing a prefix that is the first occurrence leaves the rest. */
  lemma ReplaceLeadingPrefix(pat: string, t: string)
    ensures ReplaceFirst(pat + t, pat, "") == t
  {
    assert OccursAt(pat + t, pat, 0) by {
      assert (pat + t)[0..|pat|] == pat;
    }
    assert IndexOf(pat + t, pat) == Some(0);
    assert (pat + t)[|pat|..] == t;
  }
}
