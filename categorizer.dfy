/**
 * The keyword categorizer that every spending panel carries a copy of
 * (`categorizeTxn`): the lower-cased "description subDescription" text is
 * searched for keyword groups in a fixed priority, Rent, Food,
 * Entertainment, Transport, and a transaction matching none is Other.
 */
module Categorizer {
  import opened Strings
  import opened Transactions

  datatype Category = Food | Rent | Entertainment | Transport | Other

  /** `CATEGORIES` as most panels list it. */
  const Categories: seq<Category> := [Food, Rent, Entertainment, Transport, Other]

  /** `CATEGORIES` as the free-spender summary lists it. */
  const RentFirst: seq<Category> := [Rent, Food, Entertainment, Transport, Other]

  /** The label a panel shows and uses as an object key. */
  function Name(c: Category): string {
    match c
    case Food => "Food"
    case Rent => "Rent"
    case Entertainment => "Entertainment"
    case Transport => "Transport"
    case Other => "Other"
  }

  /** Every category occurs in both lists. */
  lemma EveryCategoryListed(c: Category)
    ensures c in Categories && c in RentFirst
  {
    match c
    case Food => assert Categories[0] == c && RentFirst[1] == c;
    case Rent => assert Categories[1] == c && RentFirst[0] == c;
    case Entertainment => assert Categories[2] == c && RentFirst[2] == c;
    case Transport => assert Categories[3] == c && RentFirst[3] == c;
    case Other => assert Categories[4] == c && RentFirst[4] == c;
  }

  /** The two lists differ only in the order of their first two categories. */
  lemma RentFirstSwapsFirstTwo()
    ensures RentFirst == [Categories[1], Categories[0]] + Categories[2..]
    ensures multiset(RentFirst) == multiset(Categories)
  {
    assert Categories == [Food, Rent] + Categories[2..];
  }

  /** Names are distinct, so a category can be recovered from its key. */
  lemma NameInjective(c: Category, d: Category)
    ensures Name(c) == Name(d) <==> c == d
  {
    if c != d {
      assert Name(c)[0] != Name(d)[0] || |Name(c)| != |Name(d)|;
    }
  }

  const RentWords: seq<string> :=
    ["rent", "apartment", "lease", "condo", "utility", "hydro", "electric", "water"]

  const FoodWords: seq<string> :=
    ["grocery", "groceries", "walmart", "costco", "superstore", "loblaws", "no frills",
     "restaurant", "coffee", "cafe", "starbucks", "tim hortons", "breakfast", "lunch", "dinner"]

  const EntertainmentWords: seq<string> :=
    ["netflix", "spotify", "disney", "prime video", "cinema", "movie", "game", "streaming",
     "subscription", "clothing", "shopping"]

  const TransportWords: seq<string> :=
    ["bus", "transit", "subway", "metro", "presto", "uber", "lyft", "taxi", "gas", "petrol",
     "carpool"]

  /** The keyword group that selects a category; Other has none. */
  function Keywords(c: Category): seq<string> {
    match c
    case Rent => RentWords
    case Food => FoodWords
    case Entertainment => EntertainmentWords
    case Transport => TransportWords
    case Other => []
  }

  /** Position of a category in the order its group is tried. */
  function Priority(c: Category): nat {
    match c
    case Rent => 0
    case Food => 1
    case Entertainment => 2
    case Transport => 3
    case Other => 4
  }

  /** `text.includes(w1) || text.includes(w2) || ...`. */
  predicate MentionsAny(text: string, words: seq<string>) {
    words != [] && (Contains(text, words[0]) || MentionsAny(text, words[1..]))
  }

  /** A text mentions a group as soon as it contains one of its words. */
  lemma {:induction false} ContainsThenMentions(text: string, words: seq<string>, w: string)
    requires w in words && Contains(text, w)
    ensures MentionsAny(text, words)
  {
    if words[0] != w {
      assert w in words[1..];
      ContainsThenMentions(text, words[1..], w);
    }
  }

  /** A text mentioning a group contains one of its words. */
  lemma {:induction false} MentionsThenContains(text: string, words: seq<string>) returns (w: string)
    requires MentionsAny(text, words)
    ensures w in words && Contains(text, w)
  {
    if Contains(text, words[0]) {
      w := words[0];
    } else {
      w := MentionsThenContains(text, words[1..]);
    }
  }

  /** The search text: `` `${description || ""} ${subDescription || ""}`.toLowerCase() ``. */
  function SearchText(t: Transaction): string {
    Lower(OrEmpty(t.description) + " " + OrEmpty(t.subDescription))
  }

  /**
   * The category of a search text. The result is the first group, in
   * priority order, that the text mentions, and Other exactly when it
   * mentions none.
   */
  function CategorizeText(text: string): (r: Category)
    ensures r != Other ==> MentionsAny(text, Keywords(r))
    ensures forall c :: MentionsAny(text, Keywords(c)) ==> Priority(r) <= Priority(c)
    ensures r == Other <==> forall c :: !MentionsAny(text, Keywords(c))
  {
    if MentionsAny(text, RentWords) then Rent
    else if MentionsAny(text, FoodWords) then Food
    else if MentionsAny(text, EntertainmentWords) then Entertainment
    else if MentionsAny(text, TransportWords) then Transport
    else Other
  }

  /** `categorizeTxn(t)`. */
  function Categorize(t: Transaction): Category {
    CategorizeText(SearchText(t))
  }

  /** The search text holds the lower-cased description and sub-description. */
  lemma SearchTextHoldsFields(t: Transaction, w: string)
    requires Contains(Lower(OrEmpty(t.description)), w) || Contains(Lower(OrEmpty(t.subDescription)), w)
    ensures Contains(SearchText(t), w)
  {
    var d, s := OrEmpty(t.description), OrEmpty(t.subDescription);
    LowerConcat(d + " ", s);
    LowerConcat(d, " ");
    var front := Lower(d) + Lower(" ");
    assert SearchText(t) == front + Lower(s);
    ContainsInConcat(Lower(d), Lower(" "), w);
    ContainsInConcat(front, Lower(s), w);
  }

  /** A keyword in either field, in any letter case, selects its group or a higher-priority one. */
  lemma KeywordInFieldWins(t: Transaction, c: Category, w: string)
    requires w in Keywords(c)
    requires Contains(Lower(OrEmpty(t.description)), w) || Contains(Lower(OrEmpty(t.subDescription)), w)
    ensures Priority(Categorize(t)) <= Priority(c)
  {
    SearchTextHoldsFields(t, w);
    ContainsThenMentions(SearchText(t), Keywords(c), w);
  }

  /** Text mentioning a Rent keyword is Rent, whatever Food keyword it also mentions. */
  lemma RentTakesPriority(t: Transaction, w: string)
    requires w in RentWords && Contains(Lower(OrEmpty(t.description)), w)
    ensures Categorize(t) == Rent
  {
    KeywordInFieldWins(t, Rent, w);
  }

  /**
   * The category depends only on the lower-cased fields: changing the letter
   * case of the description or sub-description, or replacing a missing field
   * by "", does not change it.
   */
  lemma CaseInsensitive(t: Transaction, u: Transaction)
    requires Lower(OrEmpty(t.description)) == Lower(OrEmpty(u.description))
    requires Lower(OrEmpty(t.subDescription)) == Lower(OrEmpty(u.subDescription))
    ensures Categorize(t) == Categorize(u)
  {
    LowerConcat(OrEmpty(t.description) + " ", OrEmpty(t.subDescription));
    LowerConcat(OrEmpty(t.description), " ");
    LowerConcat(OrEmpty(u.description) + " ", OrEmpty(u.subDescription));
    LowerConcat(OrEmpty(u.description), " ");
  }
}
