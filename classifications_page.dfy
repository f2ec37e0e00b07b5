/** The classification management page: its search and category tab filter,
    the list of category tabs, and how a category is named and coloured. */
module ClassificationsPage {
  import opened Wrappers
  import opened Seqs
  import opened Text
  import opened Schema

  /** An empty query, or the name, the category or a non-empty description
      containing it ignoring case. */
  predicate MatchesSearch(c: Classification, q: string) {
    q == "" || IContains(c.name, q) || IContains(c.category, q) ||
    (c.description.Some? && c.description.value != "" && IContains(c.description.value, q))
  }

  /** The 'all' tab, or the tab of the classification's own category. */
  predicate MatchesTab(c: Classification, tab: string) {
    tab == "all" || c.category == tab
  }

  function Shown(q: string, tab: string): Classification -> bool {
    (c: Classification) => MatchesSearch(c, q) && MatchesTab(c, tab)
  }

  /** `filteredClassifications`. */
  function FilteredClassifications(cs: Option<seq<Classification>>, q: string, tab: string)
    : (r: Option<seq<Classification>>)
    ensures r.None? <==> cs.None?
    ensures r.Some? ==> IsSubsequence(r.value, cs.value)
    ensures r.Some? ==> forall i :: 0 <= i < |r.value| ==> MatchesSearch(r.value[i], q) && MatchesTab(r.value[i], tab)
    ensures r.Some? ==> forall i :: 0 <= i < |cs.value| ==>
              (MatchesSearch(cs.value[i], q) && MatchesTab(cs.value[i], tab) ==> cs.value[i] in r.value)
  {
    match cs
    case None => None
    case Some(s) => FilterIsSubsequence(s, Shown(q, tab)); Some(Filter(s, Shown(q, tab)))
  }

  /** No query and the 'all' tab list everything. */
  lemma NoFilterShowsAll(cs: seq<Classification>)
    ensures FilteredClassifications(Some(cs), "", "all") == Some(cs)
  {
    FilterAll(cs, Shown("", "all"));
  }

  function CategoryOf(c: Classification): string { c.category }

  /** `categories`: each category once, in the order it first occurs;
      nothing while loading. */
  function Categories(cs: Option<seq<Classification>>): (r: seq<string>)
    ensures cs.None? ==> r == []
    ensures cs.Some? ==> NoDuplicates(r)
    ensures cs.Some? ==> forall i :: 0 <= i < |cs.value| ==> cs.value[i].category in r
    ensures cs.Some? ==> forall k :: 0 <= k < |r| ==> exists i :: 0 <= i < |cs.value| && cs.value[i].category == r[k]
  {
    match cs
    case None => []
    case Some(s) =>
      var all := MapSeq(s, CategoryOf);
      assert forall i :: 0 <= i < |s| ==> all[i] == s[i].category;
      Distinct(all)
  }

  /** The tabs follow the order in which the categories first occur. */
  lemma CategoriesInFirstOccurrenceOrder(cs: seq<Classification>)
    ensures var r, all := Categories(Some(cs)), MapSeq(cs, CategoryOf);
            forall i, j :: 0 <= i < j < |r| ==> FirstIndexOf(all, r[i]) < FirstIndexOf(all, r[j])
  {
    DistinctInFirstOccurrenceOrder(MapSeq(cs, CategoryOf));
  }

  // ---------------------------------------------------------------------------
  // display name and colour

  /** `word.charAt(0).toUpperCase() + word.slice(1)`. */
  function Capitalize(w: string): (r: string)
    ensures |r| == |w|
    ensures w != "" ==> r[0] == UpperChar(w[0]) && r[1..] == w[1..]
  {
    if w == "" then "" else [UpperChar(w[0])] + w[1..]
  }

  /** `getCategoryDisplayName`: the `_`-separated pieces, each capitalised,
      joined with single spaces. */
  function DisplayName(category: string): string {
    Join(MapSeq(Split(category, '_'), Capitalize), ' ')
  }

  lemma UpperCharNotSpace(c: char)
    ensures UpperChar(c) == ' ' <==> c == ' '
  {
  }

  /** A category without spaces reads back, word by word, as its capitalised
      pieces: as many words as pieces. */
  lemma DisplayNameWords(category: string)
    requires ' ' !in category
    ensures Split(DisplayName(category), ' ') == MapSeq(Split(category, '_'), Capitalize)
    ensures |Split(DisplayName(category), ' ')| == |Split(category, '_')|
  {
    var pieces := Split(category, '_');
    var words := MapSeq(pieces, Capitalize);
    forall k | 0 <= k < |words| ensures ' ' !in words[k] {
      PieceHasNoSpace(category, k);
      if words[k] != "" {
        UpperCharNotSpace(pieces[k][0]);
        assert words[k] == [UpperChar(pieces[k][0])] + pieces[k][1..];
      }
    }
    SplitJoin(words, ' ');
  }

  /** A piece of a string without spaces has no space either. */
  lemma PieceHasNoSpace(s: string, k: nat)
    requires ' ' !in s && k < |Split(s, '_')|
    ensures ' ' !in Split(s, '_')[k]
  {
    JoinSplit(s, '_');
    JoinedPieceIn(Split(s, '_'), '_', k);
  }

  /** Every character of a piece is a character of the joined string. */
  lemma {:induction false} JoinedPieceIn(parts: seq<string>, sep: char, k: nat)
    requires k < |parts|
    ensures forall c :: c in parts[k] ==> c in Join(parts, sep)
    decreases |parts|
  {
    if |parts| > 1 {
      var rest := Join(parts[1..], sep);
      assert Join(parts, sep) == parts[0] + [sep] + rest;
      if k > 0 {
        JoinedPieceIn(parts[1..], sep, k - 1);
      }
    }
  }

  /** A two-piece category is its two capitalised pieces with a space. */
  lemma DisplayNameTwoPieces(a: string, b: string)
    requires '_' !in a && '_' !in b
    ensures DisplayName(a + "_" + b) == Capitalize(a) + " " + Capitalize(b)
  {
    assert a + "_" + b == a + ['_'] + b;
    SplitAfterWord(a, '_', b);
    SplitNoSeparator(b, '_');
    var ws := MapSeq([a, b], Capitalize);
    assert ws == [Capitalize(a), Capitalize(b)];
    assert Join(ws, ' ') == ws[0] + [' '] + Join(ws[1..], ' ');
  }

  const BlueBadge := "bg-blue-100 text-blue-800"
  const GreenBadge := "bg-green-100 text-green-800"
  const PurpleBadge := "bg-purple-100 text-purple-800"
  const GrayBadge := "bg-gray-100 text-gray-800"

  /** `getCategoryBadgeColor`: three known categories have their own colour,
      every other category is gray. */
  function BadgeColor(category: string): (r: string)
    ensures category == "email_type" <==> r == BlueBadge
    ensures category == "value_range" <==> r == GreenBadge
    ensures category == "project_type" <==> r == PurpleBadge
    ensures category != "email_type" && category != "value_range" && category != "project_type" <==> r == GrayBadge
  {
    match category
    case "email_type" => BlueBadge
    case "value_range" => GreenBadge
    case "project_type" => PurpleBadge
    case _ => GrayBadge
  }
}
