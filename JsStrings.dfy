/**
 * The few string operations of the JavaScript standard library that the
 * components rely on: `indexOf`, `replace` with a string pattern, and
 * `split(',')[1]`.
 */
module JsStrings {
  import opened JsValues

  /** `pat` occurs in `s` at position `j` */
  predicate OccursAt(s: string, pat: string, j: int) {
    0 <= j && j + |pat| <= |s| && s[j..j + |pat|] == pat
  }

  /** `s.endsWith(suffix)` */
  predicate EndsWith(s: string, suffix: string) {
    |suffix| <= |s| && s[|s| - |suffix|..] == suffix
  }

  /** A suffix of the tail is a suffix of the whole */
  lemma EndsWithAfter(prefix: string, s: string, suffix: string)
    requires EndsWith(s, suffix)
    ensures EndsWith(prefix + s, suffix)
  {
    assert (prefix + s)[|prefix + s| - |suffix|..] == s[|s| - |suffix|..];
  }

  /** A text whose tail ends in another character than `suffix` does not end with `suffix` */
  lemma EndsWithOtherLast(prefix: string, s: string, suffix: string)
    requires s != [] && suffix != [] && s[|s| - 1] != suffix[|suffix| - 1]
    ensures !EndsWith(prefix + s, suffix)
  {
  }

  /** An occurrence after the first position is an occurrence in the tail, shifted by one */
  lemma OccursAtTail(s: string, pat: string, j: int)
    requires s != [] && 1 <= j
    ensures OccursAt(s, pat, j) <==> OccursAt(s[1..], pat, j - 1)
  {
    if j + |pat| <= |s| {
      assert s[1..][j - 1..j - 1 + |pat|] == s[j..j + |pat|];
    }
  }

  /** `s.indexOf(pat)`: the first position where `pat` occurs, if any */
  function IndexOf(s: string, pat: string): (r: Option<nat>)
    ensures r.Some? ==> OccursAt(s, pat, r.value)
    ensures r.Some? ==> forall j :: 0 <= j < r.value ==> !OccursAt(s, pat, j)
    ensures r.None? ==> forall j :: !OccursAt(s, pat, j)
    decreases |s|
  {
    if |pat| > |s| then None
    else if s[..|pat|] == pat then Some(0)
    else
      match IndexOf(s[1..], pat)
      case None =>
        assert forall j :: 1 <= j ==> (OccursAt(s, pat, j) <==> OccursAt(s[1..], pat, j - 1)) by {
          forall j | 1 <= j { OccursAtTail(s, pat, j); }
        }
        None
      case Some(i) =>
        assert forall j :: 1 <= j ==> (OccursAt(s, pat, j) <==> OccursAt(s[1..], pat, j - 1)) by {
          forall j | 1 <= j { OccursAtTail(s, pat, j); }
        }
        Some(i + 1)
  }

  /**
   * The replacement text `rep` with its `$` patterns expanded, as ECMAScript's
   * GetSubstitution does for a string (not regular expression) pattern:
   * `$$` is a dollar sign, `$&` the matched text, `` $` `` the text before the
   * match and `$'` the text after it; with no capture groups every other `$`
   * stands for itself.
   */
  function Expand(rep: string, matched: string, before: string, after: string): (r: string)
    ensures '$' !in rep ==> r == rep
    ensures forall c :: c in r ==> c in rep || c in matched || c in before || c in after
    decreases |rep|
  {
    if rep == [] then []
    else if rep[0] == '$' && |rep| >= 2 && rep[1] in "$&`'" then
      var piece := match rep[1]
        case '$' => "$"
        case '&' => matched
        case '`' => before
        case _ => after;
      var rest := Expand(rep[2..], matched, before, after);
      assert forall c :: c in rep[2..] ==> c in rep;
      piece + rest
    else
      var rest := Expand(rep[1..], matched, before, after);
      assert forall c :: c in rep[1..] ==> c in rep;
      assert rep == [rep[0]] + rep[1..];
      [rep[0]] + rest
  }

  /**
   * `s.replace(pat, rep)`: the first occurrence of `pat` replaced by the
   * expansion of `rep`. The text before that occurrence and the text after
   * it are kept.
   */
  function ReplaceFirst(s: string, pat: string, rep: string): (r: string)
    ensures (forall j :: !OccursAt(s, pat, j)) ==> r == s
    ensures IndexOf(s, pat).Some? ==>
      var i := IndexOf(s, pat).value;
      i <= |r| && r[..i] == s[..i] && EndsWith(r, s[i + |pat|..])
  {
    match IndexOf(s, pat)
    case None => s
    case Some(i) =>
      var r := s[..i] + Expand(rep, pat, s[..i], s[i + |pat|..]) + s[i + |pat|..];
      assert r[..i] == s[..i];
      assert r[|r| - |s[i + |pat|..]|..] == s[i + |pat|..];
      r
  }

  /** No comma occurs in `s` */
  lemma NoComma(s: string)
    requires forall j :: !OccursAt(s, ",", j)
    ensures ',' !in s
  {
    forall j | 0 <= j < |s| ensures s[j] != ',' {
      OccursAtChar(s, ',', j);
    }
  }

  /** No comma occurs in `s` before the first one */
  lemma NoCommaBefore(s: string, k: nat)
    requires k <= |s| && forall j :: 0 <= j < k ==> !OccursAt(s, ",", j)
    ensures ',' !in s[..k]
  {
    forall j | 0 <= j < k ensures s[j] != ',' {
      OccursAtChar(s, ',', j);
    }
  }

  /**
   * `s.split(',')[1]`: the text between the first and the second comma,
   * undefined exactly when there is no comma; it never holds a comma.
   */
  function SecondField(s: string): (r: Option<string>)
    ensures r.None? <==> ',' !in s
    ensures r.Some? ==> ',' !in r.value
  {
    match IndexOf(s, ",")
    case None =>
      NoComma(s);
      None
    case Some(i) =>
      OccursAtChar(s, ',', i);
      var rest := s[i + 1..];
      match IndexOf(rest, ",")
      case None =>
        NoComma(rest);
        Some(rest)
      case Some(j) =>
        NoCommaBefore(rest, j);
        Some(rest[..j])
  }

  /** Replacing a pattern that does not occur leaves the text unchanged */
  lemma ReplaceAbsent(s: string, pat: string, rep: string)
    requires forall j :: !OccursAt(s, pat, j)
    ensures ReplaceFirst(s, pat, rep) == s
  {
  }

  /**
   * Only the first occurrence is replaced, and a replacement without `$`
   * appears verbatim in its place.
   */
  lemma ReplaceFirstOccurrence(s: string, pat: string, rep: string, k: nat)
    requires OccursAt(s, pat, k)
    requires forall j :: 0 <= j < k ==> !OccursAt(s, pat, j)
    requires '$' !in rep
    ensures ReplaceFirst(s, pat, rep) == s[..k] + rep + s[k + |pat|..]
  {
    var r := IndexOf(s, pat);
    assert r.Some? && r.value == k;
  }

  /** A one-character pattern occurs exactly where that character stands */
  lemma OccursAtChar(s: string, c: char, j: int)
    ensures OccursAt(s, [c], j) <==> 0 <= j < |s| && s[j] == c
  {
    if 0 <= j < |s| {
      assert s[j..j + 1] == [s[j]];
    }
  }

  /** A data URL's payload is the text after its single comma */
  lemma SecondFieldOfDataUrl(header: string, payload: string)
    requires ',' !in header && ',' !in payload
    ensures SecondField(header + "," + payload) == Some(payload)
  {
    var s := header + "," + payload;
    assert OccursAt(s, ",", |header|) by { assert s[|header|..|header| + 1] == ","; }
    var i := IndexOf(s, ",");
    assert i.Some?;
    OccursAtChar(s, ',', i.value);
    assert i.value == |header|;
    var rest := s[|header| + 1..];
    assert rest == payload;
    forall j ensures !OccursAt(rest, ",", j) {
      OccursAtChar(rest, ',', j);
    }
  }

  /** Without a comma, `split(',')[1]` is undefined */
  lemma SecondFieldWithoutComma(s: string)
    requires ',' !in s
    ensures SecondField(s).None?
  {
    var i := IndexOf(s, ",");
    if i.Some? {
      OccursAtChar(s, ',', i.value);
    }
  }
}
