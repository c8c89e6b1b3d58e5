/** The one string operation the stream URL needs: JavaScript's
    `String.prototype.replace` with a string pattern, which replaces only the
    first occurrence. */
module Text {
  import opened Types

  /** `p` occurs in `s` starting at index `i`. */
  predicate OccursAt(s: string, p: string, i: nat) {
    i + |p| <= |s| && s[i..i + |p|] == p
  }

  /** The first index at or after `from` where `p` occurs in `s` (`indexOf`). */
  function IndexOf(s: string, p: string, from: nat): (r: Option<nat>)
    ensures r.Some? ==> from <= r.value && OccursAt(s, p, r.value)
    ensures r.Some? ==> forall j :: from <= j < r.value ==> !OccursAt(s, p, j)
    ensures r.None? ==> forall j :: from <= j ==> !OccursAt(s, p, j)
    decreases |s| - from
  {
    if from + |p| > |s| then None
    else if s[from..from + |p|] == p then Some(from)
    else IndexOf(s, p, from + 1)
  }

  /** `s.replace(p, rep)`: the first occurrence of `p` replaced by `rep`, or `s` unchanged. */
  function ReplaceFirst(s: string, p: string, rep: string): (r: string)
    ensures (forall j :: !OccursAt(s, p, j)) ==> r == s
    ensures forall i: nat ::
      OccursAt(s, p, i) && (forall j :: 0 <= j < i ==> !OccursAt(s, p, j)) ==>
        r == s[..i] + rep + s[i + |p|..]
  {
    match IndexOf(s, p, 0)
    case None => s
    case Some(i) =>
      s[..i] + rep + s[i + |p|..]
  }

  /** Replacing the first occurrence by nothing splices the text around it. */
  lemma DropFirst(h: string, p: string, t: string)
    requires forall j :: 0 <= j < |h| ==> !OccursAt(h + p + t, p, j)
    ensures ReplaceFirst(h + p + t, p, "") == h + t
  {
    var u := h + p + t;
    assert u[|h|..|h| + |p|] == p;
    assert OccursAt(u, p, |h|);
    assert u[..|h|] == h && u[|h| + |p|..] == t;
  }
}
