/** The contractor management page: its search filter and the initials shown
    in each contractor's avatar. */
module ContractorsPage {
  import opened Wrappers
  import opened Seqs
  import opened Text
  import opened Schema

  /** The name, email or certification level contains the query ignoring
      case, or the phone number contains it as typed. */
  predicate MatchesSearch(c: Contractor, q: string) {
    IContains(c.name, q) || IContains(c.email, q) ||
    (c.phone.Some? && c.phone.value != "" && Contains(c.phone.value, q)) ||
    (c.certificationLevel.Some? && c.certificationLevel.value != "" && IContains(c.certificationLevel.value, q))
  }

  function Matching(q: string): Contractor -> bool {
    (c: Contractor) => MatchesSearch(c, q)
  }

  /** `filteredContractors`: `None` while loading, otherwise the matching
      contractors in their order. */
  function FilteredContractors(cs: Option<seq<Contractor>>, q: string): (r: Option<seq<Contractor>>)
    ensures r.None? <==> cs.None?
    ensures r.Some? ==> IsSubsequence(r.value, cs.value)
    ensures r.Some? ==> forall i :: 0 <= i < |r.value| ==> MatchesSearch(r.value[i], q)
    ensures r.Some? ==> forall i :: 0 <= i < |cs.value| && MatchesSearch(cs.value[i], q) ==> cs.value[i] in r.value
  {
    match cs
    case None => None
    case Some(s) => FilterIsSubsequence(s, Matching(q)); Some(Filter(s, Matching(q)))
  }

  /** An empty query lists every contractor. */
  lemma EmptyQueryShowsAll(cs: seq<Contractor>)
    ensures FilteredContractors(Some(cs), "") == Some(cs)
  {
    forall i | 0 <= i < |cs| ensures MatchesSearch(cs[i], "") {
      IContainsEmpty(cs[i].name);
    }
    FilterAll(cs, Matching(""));
  }

  // ---------------------------------------------------------------------------
  // initials

  /** What a template literal writes for `word[0]`: the first character, or
      the text "undefined" when the word is empty. */
  function FirstCharText(word: string): string {
    if word == "" then "undefined" else [word[0]]
  }

  /** `getInitials(name)` as written: with two or more space-separated
      pieces, the first characters of the first two pieces; otherwise the
      first two characters; then upper-cased. An empty piece (from two
      adjacent spaces, or a leading space) writes "undefined". */
  function InitialsAsWritten(name: string): (r: string)
    ensures |Split(name, ' ')| < 2 ==> r == Upper(Take(name, 2)) && |r| <= 2
    ensures |Split(name, ' ')| >= 2 && Split(name, ' ')[0] != "" && Split(name, ' ')[1] != "" ==>
              r == Upper([Split(name, ' ')[0][0], Split(name, ' ')[1][0]])
  {
    var parts := Split(name, ' ');
    if |parts| >= 2 then Upper(FirstCharText(parts[0]) + FirstCharText(parts[1]))
    else Upper(Take(name, 2))
  }

  /** The pieces of two words separated by two spaces. */
  lemma {:induction false} SplitDoubleSpace(a: string, b: string)
    requires ' ' !in a && ' ' !in b
    ensures Split(a + "  " + b, ' ') == [a, "", b]
  {
    assert a + "  " + b == a + [' '] + ([' '] + b);
    SplitAfterWord(a, ' ', [' '] + b);
    assert [' '] + b == "" + [' '] + b;
    SplitAfterWord("", ' ', b);
    SplitNoSeparator(b, ' ');
  }

  /** Two spaces between two words make the second initial "undefined". */
  lemma InitialsAsWrittenAdjacentSpaces(a: string, b: string)
    requires a != "" && ' ' !in a && ' ' !in b
    ensures InitialsAsWritten(a + "  " + b) == Upper([a[0]] + "undefined")
  {
    SplitDoubleSpace(a, b);
  }

  /** "John  Smith" (two spaces) gets "JUNDEFINED" rather than "JS". */
  lemma InitialsAsWrittenDoubleSpace()
    ensures InitialsAsWritten("John  Smith") == "JUNDEFINED"
  {
    assert "John  Smith" == "John" + "  " + "Smith";
    InitialsAsWrittenAdjacentSpaces("John", "Smith");
    assert Upper(['J'] + "undefined") == "JUNDEFINED";
  }

  function NonEmpty(w: string): bool { w != "" }

  /** The words of a name: its space-separated pieces that are not empty. */
  function Words(name: string): (ws: seq<string>)
    ensures forall i :: 0 <= i < |ws| ==> ws[i] != "" && ' ' !in ws[i]
  {
    Filter(Split(name, ' '), NonEmpty)
  }

  /** Initials taken from the first two words, however many spaces separate
      them; a name of fewer than two words keeps the first two characters. */
  function Initials(name: string): (r: string)
    ensures |r| <= 2
    ensures |Words(name)| >= 2 ==> r == Upper([Words(name)[0][0], Words(name)[1][0]])
    ensures |Words(name)| < 2 ==> r == Upper(Take(name, 2))
  {
    var ws := Words(name);
    if |ws| >= 2 then Upper([ws[0][0], ws[1][0]]) else Upper(Take(name, 2))
  }

  /** A name whose pieces are all non-empty gets the same initials both ways. */
  lemma InitialsAgree(name: string)
    requires forall i :: 0 <= i < |Split(name, ' ')| ==> Split(name, ' ')[i] != ""
    ensures Initials(name) == InitialsAsWritten(name)
  {
    FilterAll(Split(name, ' '), NonEmpty);
  }

  /** With the correction, two spaces between the words change nothing. */
  lemma InitialsAdjacentSpaces(a: string, b: string)
    requires a != "" && b != "" && ' ' !in a && ' ' !in b
    ensures Initials(a + "  " + b) == Upper([a[0], b[0]])
  {
    SplitDoubleSpace(a, b);
    assert [a, "", b] == [a] + [""] + [b];
    FilterAppend([a] + [""], [b], NonEmpty);
    FilterAppend([a], [""], NonEmpty);
    FilterAll([a], NonEmpty);
    FilterAll([b], NonEmpty);
    var empty: seq<string> := [""];
    assert empty[1..] == [];
    assert Filter(empty, NonEmpty) == [];
    assert Words(a + "  " + b) == [a, b];
  }

  lemma InitialsDoubleSpace()
    ensures Initials("John  Smith") == "JS"
  {
    assert "John  Smith" == "John" + "  " + "Smith";
    InitialsAdjacentSpaces("John", "Smith");
  }
}
