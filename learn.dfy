/** The learning page (frontend/src/app/learn/page.tsx): a fixed list of
    cards, filtered by category and by a case-insensitive search over each
    card's title and description. */
module Learn {
  import opened JsText

  datatype Card = Card(
    id: int,
    category: string,
    title: string,
    description: string,
    content: string,
    difficulty: string,
    time: string,
    hasAudio: bool,
    hasVideo: bool)

  /** The category buttons, by id; "all" is the wildcard. */
  const CategoryIds := ["all", "basics", "science", "kids"]
  const AllCategories := "all"

  const SoilMadeOf := Card(1, "basics", "What is Soil Made Of? 🌍",
    "Discover the amazing ingredients that make up healthy soil!",
    "Soil is made of four main parts: minerals (45%), organic matter (5%), water (25%), and air (25%). It's like a recipe for plant happiness!",
    "Easy", "3 min read", true, false)
  const TypesOfSoil := Card(2, "basics", "Types of Soil 🏖️🏔️",
    "Learn about sandy, clay, and loamy soils and what makes each special.",
    "There are three main types: Sandy soil (drains fast, like a beach), Clay soil (holds water, like pottery clay), and Loamy soil (the perfect mix - plants love it most!).",
    "Easy", "4 min read", true, true)
  const PhLevels := Card(3, "science", "Understanding pH Levels 🧪",
    "What does pH mean and why do plants care about it?",
    "pH measures how acidic or basic soil is, from 0-14. Most plants prefer pH 6.0-7.0. Think of it like the soil's mood - not too sour, not too bitter!",
    "Medium", "5 min read", true, false)
  const Worms := Card(4, "kids", "Soil Superheroes: Worms! 🪱",
    "Meet the amazing earthworms that help make soil healthy!",
    "Earthworms are like tiny soil engineers! They eat dead leaves and create nutrient-rich castings (fancy word for worm poop) that plants absolutely love!",
    "Easy", "3 min read", true, true)
  const MakeCompost := Card(5, "basics", "How to Make Compost 🗑️➡️🌱",
    "Turn your kitchen scraps into plant superfood!",
    "Composting is like cooking for your soil! Mix 'browns' (dry leaves, paper) with 'greens' (food scraps, grass). Add water and air, wait a few months, and voilà - plant food!",
    "Medium", "6 min read", true, true)
  const Nutrients := Card(6, "science", "Nutrients Plants Need 🍎",
    "The essential vitamins and minerals that keep plants healthy.",
    "Plants need three main nutrients: Nitrogen (N) for green growth, Phosphorus (P) for roots and flowers, and Potassium (K) for overall health. Think NPK!",
    "Medium", "5 min read", true, false)

  /** `learningCards`. */
  const LearningCards := [SoilMadeOf, TypesOfSoil, PhLevels, Worms, MakeCompost, Nutrients]

  /** `matchesCategory`: the wildcard passes every card, any other id only
      the cards of that category. */
  predicate MatchesCategory(card: Card, selectedCategory: string)
    ensures selectedCategory == AllCategories ==> MatchesCategory(card, selectedCategory)
    ensures MatchesCategory(card, selectedCategory) && selectedCategory != AllCategories ==>
            card.category == selectedCategory
  {
    selectedCategory == AllCategories || card.category == selectedCategory
  }

  /** `matchesSearch`: the lower-cased title or description contains the
      lower-cased search term. An empty term matches every card, and a term
      longer than both title and description matches none. */
  predicate MatchesSearch(card: Card, searchTerm: string)
    ensures searchTerm == "" ==> MatchesSearch(card, searchTerm)
    ensures MatchesSearch(card, searchTerm) ==>
            |searchTerm| <= |card.title| || |searchTerm| <= |card.description|
  {
    Contains(ToLower(card.title), ToLower(searchTerm)) ||
    Contains(ToLower(card.description), ToLower(searchTerm))
  }

  /** The filter's test: both the category and the search must match, so the
      unfiltered page keeps every card and a named category keeps only its
      own. */
  predicate Keep(card: Card, selectedCategory: string, searchTerm: string)
    ensures selectedCategory == AllCategories && searchTerm == "" ==> Keep(card, selectedCategory, searchTerm)
    ensures Keep(card, selectedCategory, searchTerm) && selectedCategory != AllCategories ==>
            card.category == selectedCategory
  {
    MatchesCategory(card, selectedCategory) && MatchesSearch(card, searchTerm)
  }

  /** `cards.filter(...)`: exactly the cards that pass both tests. */
  function FilterCards(cards: seq<Card>, selectedCategory: string, searchTerm: string): (r: seq<Card>)
    ensures |r| <= |cards|
    ensures forall c :: c in r ==> c in cards && Keep(c, selectedCategory, searchTerm)
    ensures forall c :: c in cards && Keep(c, selectedCategory, searchTerm) ==> c in r
  {
    if cards == [] then []
    else
      var rest := FilterCards(cards[1..], selectedCategory, searchTerm);
      if Keep(cards[0], selectedCategory, searchTerm) then [cards[0]] + rest else rest
  }

  /** `sub` is `s` with some elements removed, the rest in their order. */
  predicate IsSubsequence(sub: seq<Card>, s: seq<Card>)
    decreases |s|
  {
    if sub == [] then true
    else if s == [] then false
    else (sub[0] == s[0] && IsSubsequence(sub[1..], s[1..])) || IsSubsequence(sub, s[1..])
  }

  /** The filter keeps the order of the list it filters. */
  lemma {:induction false} FilterIsSubsequence(cards: seq<Card>, selectedCategory: string, searchTerm: string)
    ensures IsSubsequence(FilterCards(cards, selectedCategory, searchTerm), cards)
    decreases |cards|
  {
    if cards != [] {
      var rest := FilterCards(cards[1..], selectedCategory, searchTerm);
      FilterIsSubsequence(cards[1..], selectedCategory, searchTerm);
      if Keep(cards[0], selectedCategory, searchTerm) {
        assert ([cards[0]] + rest)[1..] == rest;
      } else if rest != [] {
        assert IsSubsequence(rest, cards[1..]);
      }
    }
  }

  /** With the wildcard category and an empty search every card is shown,
      since "" is a substring of every string. */
  lemma {:induction false} FilterShowsAllWhenUnfiltered(cards: seq<Card>)
    ensures FilterCards(cards, AllCategories, "") == cards
    decreases |cards|
  {
    if cards != [] {
      assert ToLower("") == "";
      FilterShowsAllWhenUnfiltered(cards[1..]);
      assert [cards[0]] + cards[1..] == cards;
    }
  }

  /** A named category keeps only its own cards. */
  lemma CategoryFilterKeepsOnlyThatCategory(cards: seq<Card>, selectedCategory: string, searchTerm: string)
    requires selectedCategory != AllCategories
    ensures forall c :: c in FilterCards(cards, selectedCategory, searchTerm) ==> c.category == selectedCategory
  {
  }

  /** The search is case-insensitive in the term: a term and its lower-cased
      form select the same cards. */
  lemma SearchIgnoresCase(cards: seq<Card>, selectedCategory: string, searchTerm: string)
    ensures FilterCards(cards, selectedCategory, ToLower(searchTerm)) ==
            FilterCards(cards, selectedCategory, searchTerm)
  {
    ToLowerIdempotent(searchTerm);
  }

  /** Every card's category has a button, so each card can be shown on its
      own category. */
  lemma CardCategoriesHaveButtons()
    ensures forall c :: c in LearningCards ==> c.category in CategoryIds
  {
    forall c | c in LearningCards
      ensures c.category in CategoryIds
    {
      assert c.category == "basics" || c.category == "science" || c.category == "kids";
    }
  }

  /** A card's `content` is never searched: changing it does not change
      whether the card is kept. */
  lemma ContentNotSearched(card: Card, newContent: string, selectedCategory: string, searchTerm: string)
    ensures Keep(card.(content := newContent), selectedCategory, searchTerm) ==
            Keep(card, selectedCategory, searchTerm)
  {
  }

  /** The page state that drives the filter. */
  class LearnPage {
    var searchTerm: string
    var selectedCategory: string

    constructor ()
      ensures searchTerm == "" && selectedCategory == AllCategories
    {
      searchTerm := "";
      selectedCategory := AllCategories;
    }

    /** `filteredCards`, recomputed from the current state: exactly the
        learning cards that pass both tests. */
    function FilteredCards(): (r: seq<Card>)
      reads this
      ensures |r| <= |LearningCards|
      ensures forall c :: c in r <==> c in LearningCards && Keep(c, selectedCategory, searchTerm)
    {
      FilterCards(LearningCards, selectedCategory, searchTerm)
    }

    /** Typing in the search box. */
    method SetSearchTerm(term: string)
      modifies this
      ensures searchTerm == term && selectedCategory == old(selectedCategory)
    {
      searchTerm := term;
    }

    /** Clicking a category button. */
    method SelectCategory(id: string)
      modifies this
      ensures selectedCategory == id && searchTerm == old(searchTerm)
    {
      selectedCategory := id;
    }

    /** "Show All Topics": clear both filters, after which every card shows. */
    method ShowAllTopics()
      modifies this
      ensures searchTerm == "" && selectedCategory == AllCategories
      ensures FilteredCards() == LearningCards
    {
      FilterShowsAllWhenUnfiltered(LearningCards);
      searchTerm := "";
      selectedCategory := AllCategories;
    }
  }
}
