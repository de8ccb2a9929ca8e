/**
 * The help-centre page: ten questions in five categories, a search over
 * question, answer and category, the matches grouped by category in order
 * of first appearance, and an accordion in which at most one answer is
 * open, addressed by its position in the list of matches.
 */
module Faq {
  import opened Common
  import opened Collections

  datatype Faq = Faq(question: string, answer: string, category: string)

  /** The page's questions, answers and categories, in the page's order. */
  const Questions: seq<string> := [
    "How do I create a BanglaPay account?",
    "Is BanglaPay safe to use?",
    "How much does it cost to use BanglaPay?",
    "How do I add money to my account?",
    "What should I do if I forget my PIN?",
    "Can I use BanglaPay internationally?",
    "How do I withdraw money from my account?",
    "What is the daily transaction limit?",
    "How long does it take for transactions to process?",
    "Can I link my bank account to BanglaPay?"
  ]

  const Answers: seq<string> := [
    "Download the BanglaPay app from Google Play Store or App Store, then follow the registration process. You'll need your phone number and a valid ID for verification.",
    "Yes, BanglaPay uses bank-level encryption and multi-factor authentication to keep your money and data secure. We're also regulated by Bangladesh Bank.",
    "Sending money to other BanglaPay users is free. Cash-in and cash-out fees vary by agent but are clearly displayed before transactions.",
    "Visit any BanglaPay agent location with cash and provide your phone number. The agent will add money to your account instantly.",
    "Use the 'Forgot PIN' option in the app and follow the verification process. You'll need to verify your identity through SMS or email.",
    "Currently, BanglaPay services are only available within Bangladesh. We're working on expanding to other countries soon.",
    "You can withdraw money by visiting any BanglaPay agent location. Simply provide your phone number and the amount you wish to withdraw.",
    "Daily limits vary based on your account verification level. Basic accounts have lower limits, while fully verified accounts can transact higher amounts.",
    "Most transactions are processed instantly. In rare cases, it may take up to 24 hours for certain transactions to complete.",
    "Yes, you can link your bank account through the app settings. This allows for easier transfers between your bank and BanglaPay wallet."
  ]

  const Categories: seq<string> := ["Account", "Security", "Pricing", "Transactions", "Account", "General", "Transactions", "Account", "Transactions", "Account"]

  const FaqCount: nat := 10

  const AllFaqs: seq<Faq> := seq(FaqCount, i requires 0 <= i < FaqCount => Faq(Questions[i], Answers[i], Categories[i]))

  // ---------------------------------------------------------------------
  // filteredFaqs
  // ---------------------------------------------------------------------

  /** The search: the term, without regard to case, in the question, the answer or the category. */
  predicate MatchesSearch(f: Faq, term: string) {
    || Includes(Lower(f.question), Lower(term))
    || Includes(Lower(f.answer), Lower(term))
    || Includes(Lower(f.category), Lower(term))
  }

  function FilteredFaqs(faqs: seq<Faq>, term: string): seq<Faq>
  {
    Filter(faqs, f => MatchesSearch(f, term))
  }

  /** The matches are exactly the questions the term occurs in, in the page's order; an empty term matches all. */
  lemma FilteredFaqsSpec(faqs: seq<Faq>, term: string, f: Faq)
    ensures Subsequence(FilteredFaqs(faqs, term), faqs)
    ensures f in FilteredFaqs(faqs, term) <==> f in faqs && MatchesSearch(f, term)
    ensures FilteredFaqs(faqs, "") == faqs
  {
    FilterIsSubsequence(faqs, f => MatchesSearch(f, term));
    FilterMembership(faqs, f => MatchesSearch(f, term), f);
    forall i | 0 <= i < |faqs|
      ensures MatchesSearch(faqs[i], "")
    {
      IncludesEmpty(Lower(faqs[i].question));
    }
    FilterKeepsAll(faqs, f => MatchesSearch(f, ""));
  }

  // ---------------------------------------------------------------------
  // groupedFaqs
  // ---------------------------------------------------------------------

  /** `faq.category || "General"`: an empty category files under "General". */
  function CategoryOf(f: Faq): (c: string)
    ensures c != ""
    ensures f.category != "" ==> c == f.category
    ensures f.category == "" ==> c == "General"
  {
    if f.category != "" then f.category else "General"
  }

  /** `groups` holds, for each category of `s` in first-seen order, that category's questions in order. */
  ghost predicate GroupsInvariant(s: seq<Faq>, categories: seq<string>, groups: map<string, seq<Faq>>)
  {
    && categories == DistinctKeys(s, CategoryOf)
    && (forall c :: c in groups <==> c in categories)
    && forall c :: c in groups ==> groups[c] == Group(s, CategoryOf, c)
  }

  /** One step of the `reduce`: pushing the next question onto its category's list keeps the invariant. */
  lemma GroupStep(faqs: seq<Faq>, i: nat, categories: seq<string>, groups: map<string, seq<Faq>>)
    requires i < |faqs| && GroupsInvariant(faqs[..i], categories, groups)
    ensures var c := CategoryOf(faqs[i]);
            GroupsInvariant(faqs[..i + 1],
                            if c in groups then categories else categories + [c],
                            groups[c := (if c in groups then groups[c] else []) + [faqs[i]]])
  {
    var s, f := faqs[..i], faqs[i];
    var c := CategoryOf(f);
    assert faqs[..i + 1] == s + [f];
    var groups' := groups[c := (if c in groups then groups[c] else []) + [f]];
    forall k | k in groups'
      ensures groups'[k] == Group(s + [f], CategoryOf, k)
    {
      GroupSnoc(s, f, CategoryOf, k, One);
      if k == c && k !in categories {
        GroupOfAbsentKey(s, CategoryOf, k);
      }
    }
  }

  /**
   * The `reduce` that pushes each question onto the list of its category,
   * creating the list on first sight. `categories` is the order in which
   * the lists were created, which is the order the page shows them in.
   */
  method GroupFaqs(faqs: seq<Faq>) returns (categories: seq<string>, groups: map<string, seq<Faq>>)
    ensures categories == DistinctKeys(faqs, CategoryOf)
    ensures forall c :: c in groups <==> c in categories
    ensures forall c :: c in groups ==> groups[c] == Group(faqs, CategoryOf, c)
  {
    categories, groups := [], map[];
    var i := 0;
    while i < |faqs|
      invariant 0 <= i <= |faqs|
      invariant GroupsInvariant(faqs[..i], categories, groups)
    {
      var f := faqs[i];
      var c := CategoryOf(f);
      GroupStep(faqs, i, categories, groups);
      if c !in groups {
        categories := categories + [c];
        groups := groups[c := []];
      }
      groups := groups[c := groups[c] + [f]];
      i := i + 1;
    }
    assert faqs[..|faqs|] == faqs;
  }

  /** The number of questions the grouped view lists, category by category. */
  function GroupedCount(categories: seq<string>, groups: map<string, seq<Faq>>): nat
    requires forall c :: c in categories ==> c in groups
  {
    if categories == [] then 0
    else GroupedCount(categories[..|categories| - 1], groups) + |groups[categories[|categories| - 1]]|
  }

  lemma {:induction false} GroupedCountIsSumOver(categories: seq<string>, groups: map<string, seq<Faq>>, s: seq<Faq>)
    requires forall c :: c in categories ==> c in groups && groups[c] == Group(s, CategoryOf, c)
    ensures GroupedCount(categories, groups) == SumOver(categories, s, CategoryOf, One)
  {
    if categories != [] {
      GroupedCountIsSumOver(categories[..|categories| - 1], groups, s);
      WeightOne(Group(s, CategoryOf, categories[|categories| - 1]));
    }
  }

  /** The grouped view lists every match exactly once: its lists add up to the matches, and each holds only its own category. */
  lemma GroupsPartitionMatches(s: seq<Faq>, categories: seq<string>, groups: map<string, seq<Faq>>, c: string, f: Faq)
    requires GroupsInvariant(s, categories, groups)
    ensures forall k :: k in categories ==> k in groups
    ensures GroupedCount(categories, groups) == |s|
    ensures c in groups ==> (f in groups[c] <==> f in s && CategoryOf(f) == c)
    ensures f in s ==> CategoryOf(f) in groups
  {
    GroupedCountIsSumOver(categories, groups, s);
    GroupsPartitionWeight(s, CategoryOf, One);
    WeightOne(s);
    FilterMembership(s, HasKey(CategoryOf, c), f);
    if f in s {
      var i :| 0 <= i < |s| && s[i] == f;
      DistinctKeysMembership(s, CategoryOf, CategoryOf(f));
    }
  }

  /** A list holding the page's questions and categories, in the page's order; the answers may be anything. */
  ghost predicate HasPageData(faqs: seq<Faq>) {
    && |faqs| == FaqCount
    && forall i :: 0 <= i < |faqs| ==> faqs[i].question == Questions[i] && faqs[i].category == Categories[i]
  }

  /** The page's list carries its questions and categories. */
  lemma AllFaqsHavePageData()
    ensures HasPageData(AllFaqs)
    ensures forall i :: 0 <= i < |AllFaqs| ==> AllFaqs[i].answer == Answers[i]
  {
  }

  /** The first four questions bring the first four categories. */
  lemma CategoriesOfFirstFour(s: seq<Faq>)
    requires HasPageData(s)
    ensures DistinctKeys(s[..4], CategoryOf) == ["Account", "Security", "Pricing", "Transactions"]
  {
    assert DistinctKeys(s[..1], CategoryOf) == ["Account"];
    assert s[..2][..1] == s[..1];
    assert DistinctKeys(s[..2], CategoryOf) == ["Account", "Security"];
    assert s[..3][..2] == s[..2];
    assert DistinctKeys(s[..3], CategoryOf) == ["Account", "Security", "Pricing"];
    assert s[..4][..3] == s[..3];
  }

  /** The fifth and sixth bring "General", the last of the five. */
  lemma CategoriesOfFirstSeven(s: seq<Faq>)
    requires HasPageData(s)
    ensures DistinctKeys(s[..7], CategoryOf) == ["Account", "Security", "Pricing", "Transactions", "General"]
  {
    CategoriesOfFirstFour(s);
    assert s[..5][..4] == s[..4];
    assert DistinctKeys(s[..5], CategoryOf) == ["Account", "Security", "Pricing", "Transactions"];
    assert s[..6][..5] == s[..5];
    assert DistinctKeys(s[..6], CategoryOf) == ["Account", "Security", "Pricing", "Transactions", "General"];
    assert s[..7][..6] == s[..6];
  }

  /** With no search the page shows its five categories, in this order. */
  lemma AllCategories(s: seq<Faq>)
    requires HasPageData(s)
    ensures DistinctKeys(s, CategoryOf) == ["Account", "Security", "Pricing", "Transactions", "General"]
  {
    CategoriesOfFirstSeven(s);
    assert s[..8][..7] == s[..7];
    assert DistinctKeys(s[..8], CategoryOf) == ["Account", "Security", "Pricing", "Transactions", "General"];
    assert s[..9][..8] == s[..8];
    assert DistinctKeys(s[..9], CategoryOf) == ["Account", "Security", "Pricing", "Transactions", "General"];
    assert s[..10] == s;
  }

  // ---------------------------------------------------------------------
  // The accordion
  // ---------------------------------------------------------------------

  /** `findIndex` by question in the list of matches; -1 when it is absent. */
  function FindIndex(s: seq<Faq>, question: string): (r: int)
    ensures -1 <= r < |s|
    ensures r >= 0 ==> s[r].question == question && forall j :: 0 <= j < r ==> s[j].question != question
    ensures r == -1 ==> forall j :: 0 <= j < |s| ==> s[j].question != question
  {
    if s == [] then -1
    else if s[0].question == question then 0
    else
      var r := FindIndex(s[1..], question);
      if r == -1 then -1 else r + 1
  }

  predicate DistinctQuestions(s: seq<Faq>) {
    forall i, j :: 0 <= i < j < |s| ==> s[i].question != s[j].question
  }

  /** With distinct questions each card is addressed by its own position in the matches. */
  lemma CardIndexIsPosition(s: seq<Faq>, i: int)
    requires DistinctQuestions(s) && 0 <= i < |s|
    ensures FindIndex(s, s[i].question) == i
  {
  }

  /** The page's questions are distinct, and so are those of any list of matches. */
  lemma QuestionsDistinct(s: seq<Faq>, term: string)
    requires HasPageData(s)
    ensures DistinctQuestions(s)
    ensures DistinctQuestions(FilteredFaqs(s, term))
  {
    assert DistinctQuestions(s) by {
      forall i, j | 0 <= i < j < |s|
        ensures s[i].question != s[j].question
      {
        assert |Questions[i]| != |Questions[j]| || Questions[i][5] != Questions[j][5];
      }
    }
    FilterKeepsDistinct(s, f => MatchesSearch(f, term));
  }

  lemma {:induction false} FilterKeepsDistinct(s: seq<Faq>, keep: Faq -> bool)
    requires DistinctQuestions(s)
    ensures DistinctQuestions(Filter(s, keep))
  {
    if s != [] {
      FilterKeepsDistinct(s[1..], keep);
      var rest := Filter(s[1..], keep);
      forall f | f in rest
        ensures f.question != s[0].question
      {
        FilterMembership(s[1..], keep, f);
      }
    }
  }

  /** `toggleFAQ`: the card at `index` opens, or closes when it was the open one. */
  function Toggled(open: Option<int>, index: int): (r: Option<int>)
    ensures r == Some(index) <==> open != Some(index)
    ensures r.None? <==> open == Some(index)
  {
    if open == Some(index) then None else Some(index)
  }

  /** Clicking the same card twice leaves the accordion as it was when that card or none was open. */
  lemma ToggleTwice(open: Option<int>, index: int)
    requires open.None? || open == Some(index)
    ensures Toggled(Toggled(open, index), index) == open
  {
  }

  /** The page state: the search box and the open card. */
  class FaqPage {
    const faqs: seq<Faq>
    var openIndex: Option<int>
    var searchTerm: string

    constructor()
      ensures faqs == AllFaqs && openIndex == None && searchTerm == ""
    {
      faqs := AllFaqs;
      openIndex, searchTerm := None, "";
    }

    /** Typing in the search box; the open position is kept as it is. */
    method Search(term: string)
      modifies this`searchTerm
      ensures searchTerm == term
    {
      searchTerm := term;
    }

    /** Clicking a card: open it, or close it when it was the open one, closing any other. */
    method Toggle(index: int)
      modifies this`openIndex
      ensures openIndex == Toggled(old(openIndex), index)
      ensures openIndex == Some(index) || openIndex == None
    {
      if openIndex == Some(index) {
        openIndex := None;
      } else {
        openIndex := Some(index);
      }
    }

    /** The answer shown, if any: the match at the open position. */
    function OpenAnswer(): (r: Option<string>)
      reads this
      ensures r.Some? ==> openIndex.Some? && 0 <= openIndex.value < |FilteredFaqs(faqs, searchTerm)|
      ensures r.Some? ==> r.value == FilteredFaqs(faqs, searchTerm)[openIndex.value].answer
    {
      var shown := FilteredFaqs(faqs, searchTerm);
      if openIndex.Some? && 0 <= openIndex.value < |shown| then Some(shown[openIndex.value].answer) else None
    }
  }
}
