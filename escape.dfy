/** `escapeRegExp`: a backslash is put before every regular-expression
    metacharacter, so that a host name can be matched literally. */
module RegExpEscape {

  predicate IsMeta(c: char) {
    c in ".*+?^${}()|[]\\"
  }

  function MetaCount(s: string): nat {
    if s == [] then 0 else (if IsMeta(s[0]) then 1 else 0) + MetaCount(s[1..])
  }

  function EscapeRegExp(s: string): (r: string)
    ensures |r| == |s| + MetaCount(s)
    ensures forall k :: 0 <= k < |r| && IsMeta(r[k]) && r[k] != '\\' ==> 0 < k && r[k - 1] == '\\'
  {
    if s == [] then []
    else if IsMeta(s[0]) then ['\\', s[0]] + EscapeRegExp(s[1..])
    else [s[0]] + EscapeRegExp(s[1..])
  }

  /** Reading an escaped pattern literally: a backslash stands for the next character. */
  function Unescape(r: string): string
    decreases |r|
  {
    if r == [] then []
    else if r[0] == '\\' && |r| >= 2 then [r[1]] + Unescape(r[2..])
    else [r[0]] + Unescape(r[1..])
  }

  /** Escaping loses nothing: the pattern denotes exactly the original text. */
  lemma {:induction false} EscapeRoundTrip(s: string)
    ensures Unescape(EscapeRegExp(s)) == s
  {
    if s != [] {
      EscapeRoundTrip(s[1..]);
      var r := EscapeRegExp(s);
      if IsMeta(s[0]) {
        assert r[2..] == EscapeRegExp(s[1..]);
      } else {
        assert r[1..] == EscapeRegExp(s[1..]);
      }
    }
  }
}
