/**
  How the dev server injects the extension id into the loader it serves:
  `loaderCode.replace('{{EXTENSION_ID}}', id)`. With a string pattern,
  `String.prototype.replace` replaces only the first occurrence, and the
  replacement string is still scanned for `$` patterns (ECMAScript
  GetSubstitution, with no capture groups).
 */
module Substitution {
  import opened Wrappers

  const Placeholder: string := "{{EXTENSION_ID}}"

  predicate OccursAt(s: string, pat: string, i: nat)
  {
    i + |pat| <= |s| && s[i..i + |pat|] == pat
  }

  /** The first index at or after `from` where `pat` occurs in `s`. */
  function IndexFrom(s: string, pat: string, from: nat): (r: Option<nat>)
    requires from <= |s|
    ensures r.Some? ==> from <= r.value && OccursAt(s, pat, r.value)
    ensures r.Some? ==> forall j :: from <= j < r.value ==> !OccursAt(s, pat, j)
    ensures r.None? ==> forall j :: from <= j ==> !OccursAt(s, pat, j)
    decreases |s| - from
  {
    if OccursAt(s, pat, from) then Some(from)
    else if from == |s| then None
    else IndexFrom(s, pat, from + 1)
  }

  /** `s.indexOf(pat)`: the first occurrence; an empty pattern occurs at 0. */
  function IndexOf(s: string, pat: string): (r: Option<nat>)
    ensures r.Some? ==> OccursAt(s, pat, r.value) && forall j :: 0 <= j < r.value ==> !OccursAt(s, pat, j)
    ensures r.None? ==> forall j :: !OccursAt(s, pat, j)
  {
    IndexFrom(s, pat, 0)
  }

  /** The replacement text for one match: `$$` gives `$`, `$&` the match,
      `` $` `` the text before it, `$'` the text after it; any other `$`
      (there are no capture groups) is kept as written. */
  function Expand(rep: string, matched: string, before: string, after: string): string
    decreases |rep|
  {
    if rep == [] then []
    else if rep[0] == '$' && |rep| >= 2 && rep[1] == '$' then "$" + Expand(rep[2..], matched, before, after)
    else if rep[0] == '$' && |rep| >= 2 && rep[1] == '&' then matched + Expand(rep[2..], matched, before, after)
    else if rep[0] == '$' && |rep| >= 2 && rep[1] == '`' then before + Expand(rep[2..], matched, before, after)
    else if rep[0] == '$' && |rep| >= 2 && rep[1] == '\'' then after + Expand(rep[2..], matched, before, after)
    else [rep[0]] + Expand(rep[1..], matched, before, after)
  }

  /** `s.replace(pat, rep)` with a string `pat`. */
  function ReplaceFirst(s: string, pat: string, rep: string): (r: string)
    ensures (forall j :: !OccursAt(s, pat, j)) ==> r == s
    ensures forall i: nat :: OccursAt(s, pat, i) && (forall j :: 0 <= j < i ==> !OccursAt(s, pat, j)) && '$' !in rep ==>
      r == s[..i] + rep + s[i + |pat|..]
  {
    match IndexOf(s, pat)
    case None => s
    case Some(i) =>
      ExpandLiteral(rep, pat, s[..i], s[i + |pat|..]);
      s[..i] + Expand(rep, pat, s[..i], s[i + |pat|..]) + s[i + |pat|..]
  }

  /** A replacement without `$` is inserted literally. */
  lemma {:induction false} ExpandLiteral(rep: string, matched: string, before: string, after: string)
    ensures '$' !in rep ==> Expand(rep, matched, before, after) == rep
    decreases |rep|
  {
    if rep != [] && '$' !in rep {
      assert rep[0] != '$';
      ExpandLiteral(rep[1..], matched, before, after);
    }
  }

  /** Serving the loader: the first placeholder becomes the id (when the id
      holds no `$`), and everything after it, any later placeholder
      included, is served verbatim. */
  lemma ServeLoader(prefix: string, suffix: string, id: string)
    requires forall j :: 0 <= j < |prefix| ==> !OccursAt(prefix + Placeholder + suffix, Placeholder, j)
    requires '$' !in id
    ensures ReplaceFirst(prefix + Placeholder + suffix, Placeholder, id) == prefix + id + suffix
  {
    var s := prefix + Placeholder + suffix;
    var n := |prefix|;
    assert s[n..n + |Placeholder|] == Placeholder;
    assert OccursAt(s, Placeholder, n);
    assert IndexOf(s, Placeholder) == Some(n);
    assert s[..n] == prefix;
    assert s[n + |Placeholder|..] == suffix;
    ExpandLiteral(id, Placeholder, prefix, suffix);
  }

  /** With a `$&` in the id the placeholder is put back: the substitution is
      not literal for every id. */
  lemma DollarAmpersandRestoresMatch(prefix: string, suffix: string)
    requires forall j :: 0 <= j < |prefix| ==> !OccursAt(prefix + Placeholder + suffix, Placeholder, j)
    ensures ReplaceFirst(prefix + Placeholder + suffix, Placeholder, "$&") == prefix + Placeholder + suffix
  {
    var s := prefix + Placeholder + suffix;
    var n := |prefix|;
    assert s[n..n + |Placeholder|] == Placeholder;
    assert OccursAt(s, Placeholder, n);
    assert IndexOf(s, Placeholder) == Some(n);
    assert s[..n] == prefix;
    assert s[n + |Placeholder|..] == suffix;
    assert "$&"[2..] == [];
  }
}
