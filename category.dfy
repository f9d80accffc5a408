/**
 * getCategoryFromAI: matching the language model's category answer against
 * the user's categories, or wrapping it as a suggestion.
 */
module Category {
  import opened Wrappers
  import opened Text

  /** The marker the model may put before a new category it suggests. */
  const TAG: string := "sugestão:"

  /** A category the user already has, or `{ suggested: name }`. */
  datatype CategoryAnswer = Known(name: string) | Suggested(suggested: string)

  /** `.replace(/sugestão:\s*\/i, '')` on a lower-cased string: the first
      occurrence of the marker and the white space after it are removed.
      (On a lower-cased string the case-insensitive match is an exact one.) */
  function StripTag(s: string): string {
    match IndexOf(s, TAG)
    case None => s
    case Some(i) => s[..i] + TrimStart(s[i + |TAG|..])
  }

  /** `response.trim().toLowerCase().replace(/sugestão:\s*\/i, '')`. */
  function Normalize(reply: string): (r: string)
    ensures IsLower(r)
  {
    LowerIsLower(Trim(reply));
    StripTagKeepsLower(Lower(Trim(reply)));
    StripTag(Lower(Trim(reply)))
  }

  /** `categories.map(cat => cat.toLowerCase())`. */
  function LowerAll(categories: seq<string>): (r: seq<string>)
    ensures |r| == |categories|
    ensures forall i :: 0 <= i < |categories| ==> r[i] == Lower(categories[i])
  {
    seq(|categories|, i requires 0 <= i < |categories| => Lower(categories[i]))
  }

  /** getCategoryFromAI, given the model's answer: the normalised answer is
      taken as a category exactly when some category equals it ignoring case. */
  function MatchCategory(reply: string, categories: seq<string>): (r: CategoryAnswer)
    ensures r.Known? <==> exists i :: 0 <= i < |categories| && Lower(categories[i]) == Normalize(reply)
    ensures r.Known? ==> r.name == Normalize(reply)
    ensures r.Suggested? ==> r.suggested == Normalize(reply)
  {
    var s := Normalize(reply);
    if s in LowerAll(categories) then Known(s) else Suggested(s)
  }

  lemma StripTagKeepsLower(s: string)
    requires IsLower(s)
    ensures IsLower(StripTag(s))
  {
    match IndexOf(s, TAG)
    case None =>
      assert StripTag(s) == s;
    case Some(i) =>
      assert StripTag(s) == s[..i] + TrimStart(s[i + |TAG|..]);
      LowerAround(s, i, i + |TAG|);
  }

  /** Cutting a piece out of a lower-case string, and trimming the rest,
      leaves it lower case. */
  lemma LowerAround(s: string, i: nat, j: nat)
    requires IsLower(s) && i <= j <= |s|
    ensures IsLower(s[..i] + TrimStart(s[j..]))
  {
    IsLowerSlice(s, 0, i);
    assert s[..i] == s[0..i];
    IsLowerSlice(s, j, |s|);
    assert s[j..] == s[j..|s|];
    TrimStartKeepsLower(s[j..]);
    IsLowerConcat(s[..i], TrimStart(s[j..]));
  }

  lemma TrimStartKeepsLower(t: string)
    requires IsLower(t)
    ensures IsLower(TrimStart(t))
  {
    var r := TrimStart(t);
    IsLowerSlice(t, |t| - |r|, |t|);
    assert r == t[|t| - |r|..|t|];
  }

  /** A suggestion is never a name the user already has, so approving it
      always adds a new category. */
  lemma SuggestionIsNew(reply: string, categories: seq<string>)
    requires MatchCategory(reply, categories).Suggested?
    ensures MatchCategory(reply, categories).suggested !in categories
  {
    LowerOfLower(Normalize(reply));
  }

  /** The model naming a known category, in any case and with any white
      space around it, selects that category in lower case. */
  lemma KnownAnswer(before: string, c: string, after: string, categories: seq<string>)
    requires c in categories
    requires AllSpace(before) && AllSpace(after) && IsTrimmed(c)
    requires !Contains(Lower(c), TAG)
    ensures MatchCategory(before + c + after, categories) == Known(Lower(c))
  {
    TrimUnique(before, c, after);
    assert Normalize(before + c + after) == Lower(c);
    var i :| 0 <= i < |categories| && categories[i] == c;
    assert Lower(categories[i]) == Lower(c);
  }

  /** The marker as the model usually writes it satisfies SuggestionAnswer. */
  lemma LowerSuggestionMarker()
    ensures Lower("Sugestão: ") == TAG + " "
  {
    var m := "Sugestão: ";
    assert LowerChar(m[0]) == 's';
    forall i | 1 <= i < |m| ensures LowerChar(m[i]) == m[i] {
    }
  }

  /** "Sugestão: <name>" (the marker in any case) for a name none of the
      user's categories matches is read as that name, lower-cased, suggested. */
  lemma SuggestionAnswer(marker: string, n: string, categories: seq<string>)
    requires Lower(marker) == TAG + " "
    requires n != [] && IsTrimmed(n)
    requires forall i :: 0 <= i < |categories| ==> Lower(categories[i]) != Lower(n)
    ensures MatchCategory(marker + n, categories) == Suggested(Lower(n))
  {
    NormalizeMarked(marker, n);
  }

  /** The marker, a blank and a name normalise to the name in lower case. */
  lemma NormalizeMarked(marker: string, n: string)
    requires Lower(marker) == TAG + " "
    requires n != [] && IsTrimmed(n)
    ensures Normalize(marker + n) == Lower(n)
  {
    var reply := marker + n;
    var t := " " + Lower(n);
    MarkedIsTrimmed(marker, n);
    LowerMarked(marker, n);
    NormalizeOfTagged(reply, t);
    BlankThenName(n);
  }

  lemma NormalizeOfTagged(reply: string, t: string)
    requires Trim(reply) == reply && Lower(reply) == TAG + t
    ensures Normalize(reply) == TrimStart(t)
  {
    StripTagAtStart(t);
  }

  lemma BlankThenName(n: string)
    requires n != [] && IsTrimmed(n)
    ensures TrimStart(" " + Lower(n)) == Lower(n)
  {
    LowerKeepsTrimmed(n);
    assert |Lower(n)| == |n|;
    assert AllSpace(" ");
    TrimStartSpaces(" ", Lower(n));
  }

  lemma MarkedIsTrimmed(marker: string, n: string)
    requires Lower(marker) == TAG + " "
    requires n != [] && IsTrimmed(n)
    ensures Trim(marker + n) == marker + n
  {
    var reply := marker + n;
    assert |marker| == |TAG| + 1;
    assert marker[0] != ' ' by {
      assert Lower(marker)[0] == 's';
    }
    assert reply[0] == marker[0];
    assert reply[|reply| - 1] == n[|n| - 1];
    TrimmedIsFixed(reply);
  }

  lemma LowerMarked(marker: string, n: string)
    requires Lower(marker) == TAG + " "
    ensures Lower(marker + n) == TAG + (" " + Lower(n))
  {
    LowerConcat(marker, n);
    assert TAG + " " + Lower(n) == TAG + (" " + Lower(n));
  }

  lemma PrefixOccurs(w: string, t: string)
    ensures OccursAt(w + t, w, 0) && (w + t)[|w|..] == t
  {
    assert (w + t)[0..|w|] == w;
  }

  /** A marker at the very start is removed with the white space after it. */
  lemma StripTagAtStart(t: string)
    ensures StripTag(TAG + t) == TrimStart(t)
  {
    PrefixOccurs(TAG, t);
    var s := TAG + t;
    assert IndexOf(s, TAG) == Some(0);
    assert s[..0] == [];
  }

  /** An empty answer (for one, from a model that returned nothing) is read
      as the suggestion of the empty name. */
  lemma EmptyAnswerIsEmptySuggestion(categories: seq<string>)
    requires forall i :: 0 <= i < |categories| ==> categories[i] != []
    ensures MatchCategory("", categories) == Suggested("")
  {
    assert Trim("") == "";
    assert IndexOf("", TAG).None? by {
      assert !OccursAt("", TAG, 0);
    }
  }
}
