/**
 * The catalog page's filter: a card is shown when it is in the selected
 * category (or the selection is "All") and its lower-cased name contains
 * the lower-cased search term; and the page's result line and empty state.
 */
module CardsPage {
  import opened NumberText

  /** A catalog entry. */
  datatype GiftCard = GiftCard(
    id: int,
    name: string,
    category: string,
    image: string,
    minValue: int,
    maxValue: int,
    featured: bool)

  /** The catalog as the page defines it. */
  const AllGiftCards: seq<GiftCard> := [
    GiftCard(1, "Amazon", "Shopping", "\U{1F6D2}", 10, 500, true),
    GiftCard(2, "Netflix", "Entertainment", "\U{1F3AC}", 15, 100, true),
    GiftCard(3, "Spotify", "Music", "\U{1F3B5}", 10, 100, true),
    GiftCard(4, "Starbucks", "Food & Dining", "\U{2615}", 5, 200, true),
    GiftCard(5, "Steam", "Gaming", "\U{1F3AE}", 10, 100, true),
    GiftCard(6, "iTunes", "Entertainment", "\U{1F3A7}", 10, 200, true),
    GiftCard(7, "Google Play", "Apps & Games", "\U{1F4F1}", 10, 200, true),
    GiftCard(8, "Uber", "Transportation", "\U{1F697}", 15, 200, true),
    GiftCard(9, "Target", "Shopping", "\U{1F3AF}", 10, 500, false),
    GiftCard(10, "Walmart", "Shopping", "\U{1F3EA}", 10, 500, false),
    GiftCard(11, "PlayStation", "Gaming", "\U{1F579}\U{FE0F}", 10, 100, false),
    GiftCard(12, "Xbox", "Gaming", "\U{1F3AF}", 10, 100, false)
  ]

  /** The category buttons, "All" first. */
  const Categories: seq<string> :=
    ["All", "Shopping", "Entertainment", "Gaming", "Food & Dining", "Music", "Apps & Games", "Transportation"]

  /** ASCII lower-casing of one character. */
  function LowerChar(c: char): char {
    if 'A' <= c <= 'Z' then (c as int - 'A' as int + 'a' as int) as char else c
  }

  /** ASCII upper-casing of one character. */
  function UpperChar(c: char): char {
    if 'a' <= c <= 'z' then (c as int - 'a' as int + 'A' as int) as char else c
  }

  /** `s.toLowerCase()`, on ASCII letters. */
  function ToLower(s: string): (r: string)
    ensures |r| == |s| && forall i :: 0 <= i < |s| ==> r[i] == LowerChar(s[i])
  {
    if s == [] then [] else [LowerChar(s[0])] + ToLower(s[1..])
  }

  /** `s.toUpperCase()`, on ASCII letters. */
  function ToUpper(s: string): (r: string)
    ensures |r| == |s| && forall i :: 0 <= i < |s| ==> r[i] == UpperChar(s[i])
  {
    if s == [] then [] else [UpperChar(s[0])] + ToUpper(s[1..])
  }

  /** `hay.includes(needle)`: `needle` occurs in `hay` at some position. */
  predicate Contains(hay: string, needle: string) {
    exists i :: 0 <= i <= |hay| - |needle| && needle <= hay[i..]
  }

  predicate MatchesCategory(selected: string, card: GiftCard) {
    selected == "All" || card.category == selected
  }

  predicate MatchesSearch(term: string, card: GiftCard) {
    Contains(ToLower(card.name), ToLower(term))
  }

  /** The filter's test for one card. */
  predicate Keeps(selected: string, term: string, card: GiftCard) {
    MatchesCategory(selected, card) && MatchesSearch(term, card)
  }

  /** The cards the page shows, in catalog order (`allGiftCards.filter(...)`). */
  function FilterCards(cards: seq<GiftCard>, selected: string, term: string): (shown: seq<GiftCard>)
    ensures |shown| <= |cards|
    ensures forall i :: 0 <= i < |shown| ==> shown[i] in cards && Keeps(selected, term, shown[i])
  {
    if cards == [] then []
    else (if Keeps(selected, term, cards[0]) then [cards[0]] else []) + FilterCards(cards[1..], selected, term)
  }

  /** `a` is `b` with some elements left out and the rest in order. */
  predicate IsSubsequence(a: seq<GiftCard>, b: seq<GiftCard>) {
    if a == [] then true
    else if b == [] then false
    else if a[0] == b[0] then IsSubsequence(a[1..], b[1..])
    else IsSubsequence(a, b[1..])
  }

  lemma {:induction false} SubsequenceOfTail(a: seq<GiftCard>, b: seq<GiftCard>)
    requires b != [] && IsSubsequence(a, b[1..])
    ensures IsSubsequence(a, b)
    decreases |b|, 0
  {
    if a != [] && a[0] == b[0] {
      SubsequenceDropFirst(a, b[1..]);
    }
  }

  lemma {:induction false} SubsequenceDropFirst(a: seq<GiftCard>, b: seq<GiftCard>)
    requires a != [] && IsSubsequence(a, b)
    ensures IsSubsequence(a[1..], b)
    decreases |b|, 1
  {
    if a[0] == b[0] {
      if a[1..] != [] {
        SubsequenceDropFirst(a[1..], b[1..]);
        SubsequenceOfTail(a[1..], b);
      }
    } else {
      SubsequenceDropFirst(a, b[1..]);
      if a[1..] != [] {
        SubsequenceOfTail(a[1..], b);
      }
    }
  }

  lemma ConsSubsequence(x: GiftCard, a: seq<GiftCard>, b: seq<GiftCard>)
    requires IsSubsequence(a, b)
    ensures IsSubsequence([x] + a, [x] + b)
  {
    assert ([x] + a)[1..] == a && ([x] + b)[1..] == b;
  }

  /** The shown cards keep the catalog's order: they are a subsequence of it. */
  lemma {:induction false} FilterIsSubsequence(cards: seq<GiftCard>, selected: string, term: string)
    ensures IsSubsequence(FilterCards(cards, selected, term), cards)
  {
    if cards != [] {
      var rest := FilterCards(cards[1..], selected, term);
      FilterIsSubsequence(cards[1..], selected, term);
      HeadAndTail(cards);
      if Keeps(selected, term, cards[0]) {
        assert FilterCards(cards, selected, term) == [cards[0]] + rest;
        ConsSubsequence(cards[0], rest, cards[1..]);
      } else {
        assert FilterCards(cards, selected, term) == rest;
        SubsequenceOfTail(rest, cards);
      }
    }
  }

  /**
   * Soundness and completeness: a card is shown exactly when it is in the
   * catalog, matches the category (unless "All" is selected) and its
   * lower-cased name contains the lower-cased term.
   */
  lemma {:induction false} FilterExactlyMatching(cards: seq<GiftCard>, selected: string, term: string, c: GiftCard)
    ensures c in FilterCards(cards, selected, term) <==>
            c in cards && (selected == "All" || c.category == selected) &&
            Contains(ToLower(c.name), ToLower(term))
  {
    if cards != [] {
      FilterExactlyMatching(cards[1..], selected, term, c);
      HeadAndTail(cards);
    }
  }

  lemma HeadAndTail(s: seq<GiftCard>)
    requires s != []
    ensures [s[0]] + s[1..] == s
  {
  }

  /** A filter that keeps every card returns the list unchanged. */
  lemma {:induction false} FilterKeepingAll(cards: seq<GiftCard>, selected: string, term: string)
    requires forall i :: 0 <= i < |cards| ==> Keeps(selected, term, cards[i])
    ensures FilterCards(cards, selected, term) == cards
  {
    if cards != [] {
      var rest := cards[1..];
      forall i | 0 <= i < |rest| ensures Keeps(selected, term, rest[i]) {
        assert rest[i] == cards[i + 1];
      }
      FilterKeepingAll(rest, selected, term);
      assert Keeps(selected, term, cards[0]);
      HeadAndTail(cards);
    }
  }

  /** With "All" and an empty search term, the page shows the whole catalog. */
  lemma AllWithEmptyTermShowsEverything(cards: seq<GiftCard>)
    ensures FilterCards(cards, "All", "") == cards
  {
    forall i | 0 <= i < |cards| ensures Keeps("All", "", cards[i]) {
      EmptyTermMatches(cards[i]);
    }
    FilterKeepingAll(cards, "All", "");
  }

  /** Two terms that lower-case alike select the same cards. */
  lemma {:induction false} FilterDependsOnLowerCaseTerm(cards: seq<GiftCard>, selected: string, t1: string, t2: string)
    requires ToLower(t1) == ToLower(t2)
    ensures FilterCards(cards, selected, t1) == FilterCards(cards, selected, t2)
  {
    if cards != [] {
      FilterDependsOnLowerCaseTerm(cards[1..], selected, t1, t2);
    }
  }

  lemma CaseOfChar(c: char)
    ensures LowerChar(UpperChar(c)) == LowerChar(c)
    ensures LowerChar(LowerChar(c)) == LowerChar(c)
  {
  }

  /** Lower-casing forgets any earlier upper- or lower-casing. */
  lemma CaseOfText(s: string)
    ensures ToLower(ToUpper(s)) == ToLower(s)
    ensures ToLower(ToLower(s)) == ToLower(s)
  {
    forall i | 0 <= i < |s|
      ensures ToLower(ToUpper(s))[i] == ToLower(s)[i]
      ensures ToLower(ToLower(s))[i] == ToLower(s)[i]
    {
      CaseOfChar(s[i]);
    }
  }

  /** Changing the case of the search term does not change what is shown. */
  lemma FilterIgnoresCase(cards: seq<GiftCard>, selected: string, term: string)
    ensures FilterCards(cards, selected, ToUpper(term)) == FilterCards(cards, selected, term)
    ensures FilterCards(cards, selected, ToLower(term)) == FilterCards(cards, selected, term)
  {
    CaseOfText(term);
    FilterDependsOnLowerCaseTerm(cards, selected, ToUpper(term), term);
    FilterDependsOnLowerCaseTerm(cards, selected, ToLower(term), term);
  }

  /** The "Showing N gift card(s)" line. */
  function ResultLine(n: nat): (line: string)
    ensures |line| > 0 && (line[|line| - 1] == 's' <==> n != 1)
  {
    "Showing " + IntegerText(n) + " gift card" + (if n != 1 then "s" else "")
  }

  /** What the page shows below the result line. */
  datatype Listing = Grid(cards: seq<GiftCard>) | NoResults(message: string)

  function ListingOf(shown: seq<GiftCard>): (l: Listing)
    ensures l.NoResults? <==> shown == []
    ensures l.Grid? ==> l.cards == shown
  {
    if |shown| > 0 then Grid(shown) else NoResults("No gift cards found. Try a different search or category.")
  }

  /** Every name contains the empty term. */
  lemma EmptyTermMatches(card: GiftCard)
    ensures MatchesSearch("", card)
  {
    assert "" <= ToLower(card.name)[0..];
  }

  /** On the page's own catalog, "Gaming" with no search shows Steam and Xbox but not Amazon. */
  lemma GamingCategory()
    ensures var shown := FilterCards(AllGiftCards, "Gaming", "");
            AllGiftCards[4] in shown && AllGiftCards[11] in shown && AllGiftCards[0] !in shown
  {
    EmptyTermMatches(AllGiftCards[4]);
    EmptyTermMatches(AllGiftCards[11]);
    FilterExactlyMatching(AllGiftCards, "Gaming", "", AllGiftCards[4]);
    FilterExactlyMatching(AllGiftCards, "Gaming", "", AllGiftCards[11]);
    FilterExactlyMatching(AllGiftCards, "Gaming", "", AllGiftCards[0]);
  }

  /**
   * Every catalog card sits under a category button other than "All": its
   * own category is one, and selecting it with no search shows the card.
   */
  lemma EveryCardHasItsCategoryButton(card: GiftCard)
    requires card in AllGiftCards
    ensures card.category in Categories[1..]
    ensures card in FilterCards(AllGiftCards, card.category, "")
  {
    CategoryIsAButton(card);
    ShownUnderOwnCategory(AllGiftCards, card);
  }

  lemma CategoryIsAButton(card: GiftCard)
    requires card in AllGiftCards
    ensures card.category in Categories[1..]
  {
  }

  /** Selecting a card's own category with no search shows the card. */
  lemma ShownUnderOwnCategory(cards: seq<GiftCard>, card: GiftCard)
    requires card in cards
    ensures card in FilterCards(cards, card.category, "")
  {
    EmptyTermMatches(card);
    FilterExactlyMatching(cards, card.category, "", card);
  }

  /** A selection that some catalog card matches does not lead to the empty state. */
  lemma ShownUnder(card: GiftCard, selected: string)
    requires card in AllGiftCards && MatchesCategory(selected, card)
    ensures FilterCards(AllGiftCards, selected, "") != []
  {
    EmptyTermMatches(card);
    FilterExactlyMatching(AllGiftCards, selected, "", card);
  }

  /** No category button, "All" included, leads to the empty state when the search is empty. */
  lemma EveryCategoryButtonShowsACard(category: string)
    requires category in Categories
    ensures FilterCards(AllGiftCards, category, "") != []
  {
    var i :| 0 <= i < |Categories| && Categories[i] == category;
    var k := [0, 0, 1, 4, 3, 2, 6, 7][i];
    assert AllGiftCards[k] in AllGiftCards;
    assert MatchesCategory(Categories[i], AllGiftCards[k]);
    ShownUnder(AllGiftCards[k], category);
  }

  lemma LowerPlay()
    ensures ToLower("PLAY") == "play"
  {
    assert forall i :: 0 <= i < 4 ==> ToLower("PLAY")[i] == LowerChar("PLAY"[i]);
  }

  /** Lower-casing commutes with dropping a prefix. */
  lemma {:induction false} LowerSuffix(s: string, i: nat)
    requires i <= |s|
    ensures ToLower(s)[i..] == ToLower(s[i..])
  {
    if i == 0 {
      assert s[0..] == s;
    } else {
      LowerSuffix(s[1..], i - 1);
      assert s[1..][i - 1..] == s[i..];
      assert ToLower(s)[i..] == ToLower(s[1..])[i - 1..];
    }
  }

  lemma LowerPlayTitle()
    ensures ToLower("Play") == "play"
  {
    assert forall i :: 0 <= i < 4 ==> ToLower("Play")[i] == LowerChar("Play"[i]);
  }

  lemma PlayInGooglePlay()
    ensures Contains(ToLower("Google Play"), ToLower("PLAY"))
  {
    var google := ToLower("Google Play");
    LowerPlay();
    LowerPlayTitle();
    LowerSuffix("Google Play", 7);
    assert "Google Play"[7..] == "Play";
    assert google[7..] == "play";
    assert 0 <= 7 <= |google| - |ToLower("PLAY")| && ToLower("PLAY") <= google[7..];
  }

  lemma PlayInPlayStation()
    ensures Contains(ToLower("PlayStation"), ToLower("PLAY"))
  {
    LowerPlay();
    var station := ToLower("PlayStation");
    assert forall i :: 0 <= i < 4 ==> station[i] == LowerChar("PlayStation"[i]);
    assert ToLower("PLAY") <= station[0..];
  }

  lemma PlayNotInAmazon()
    ensures !Contains(ToLower("Amazon"), ToLower("PLAY"))
  {
    LowerPlay();
    var amazon := ToLower("Amazon");
    assert forall i :: 0 <= i < 6 ==> amazon[i] == LowerChar("Amazon"[i]);
    forall i | 0 <= i <= |amazon| - 4 ensures !("play" <= amazon[i..]) {
      assert amazon[i..][0] != 'p';
    }
  }

  /** Searching "PLAY" in all categories finds Google Play and PlayStation but not Amazon. */
  lemma SearchIgnoresCaseOnCatalog()
    ensures var shown := FilterCards(AllGiftCards, "All", "PLAY");
            AllGiftCards[6] in shown && AllGiftCards[10] in shown && AllGiftCards[0] !in shown
  {
    PlayInGooglePlay();
    PlayInPlayStation();
    PlayNotInAmazon();
    FilterExactlyMatching(AllGiftCards, "All", "PLAY", AllGiftCards[6]);
    FilterExactlyMatching(AllGiftCards, "All", "PLAY", AllGiftCards[10]);
    FilterExactlyMatching(AllGiftCards, "All", "PLAY", AllGiftCards[0]);
  }
}
