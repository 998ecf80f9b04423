/** The flashcard page of the learning lab: the fixed card list, the category
    tabs with their counts, the completed-card count, and the practice/quiz
    session whose handlers move through the filtered cards. */
module Learn {
  import opened Text

  datatype Difficulty = Beginner | Intermediate | Advanced

  /** A flashcard; the image URL and the description are rendering only. */
  datatype IslCard = IslCard(id: nat, word: string, category: string, difficulty: Difficulty,
                             completed: bool, locked: bool)

  const GreetingCards: seq<IslCard> := [
    IslCard(1, "Hello", "greetings", Beginner, true, false),
    IslCard(2, "Thank You", "greetings", Beginner, true, false),
    IslCard(3, "Good Morning", "greetings", Beginner, false, false),
    IslCard(4, "Good Night", "greetings", Beginner, false, false),
    IslCard(5, "Please", "greetings", Beginner, false, false),
    IslCard(6, "Sorry", "greetings", Beginner, false, false)
  ]

  const NeedCards: seq<IslCard> := [
    IslCard(7, "Water", "needs", Beginner, false, false),
    IslCard(8, "Food", "needs", Beginner, false, false),
    IslCard(9, "Bathroom", "needs", Beginner, false, false),
    IslCard(10, "Medicine", "needs", Intermediate, false, false),
    IslCard(11, "Sleep", "needs", Beginner, false, false)
  ]

  const EmergencyCards: seq<IslCard> := [
    IslCard(12, "Help", "emergency", Intermediate, false, false),
    IslCard(13, "Emergency", "emergency", Intermediate, false, true),
    IslCard(14, "Police", "emergency", Intermediate, false, true),
    IslCard(15, "Doctor", "emergency", Intermediate, false, true)
  ]

  const PeopleCards: seq<IslCard> := [
    IslCard(16, "Family", "people", Intermediate, false, true),
    IslCard(17, "Friend", "people", Intermediate, false, true),
    IslCard(18, "Mother", "people", Intermediate, false, true),
    IslCard(19, "Father", "people", Intermediate, false, true)
  ]

  const EmotionCards: seq<IslCard> := [
    IslCard(20, "Love", "emotions", Advanced, false, true),
    IslCard(21, "Happy", "emotions", Intermediate, false, true),
    IslCard(22, "Sad", "emotions", Intermediate, false, true),
    IslCard(23, "Angry", "emotions", Advanced, false, true)
  ]

  const NumberCards: seq<IslCard> := [
    IslCard(24, "One", "numbers", Beginner, false, false),
    IslCard(25, "Two", "numbers", Beginner, false, false),
    IslCard(26, "Three", "numbers", Beginner, false, false),
    IslCard(27, "Five", "numbers", Beginner, false, false)
  ]

  const ColorCards: seq<IslCard> := [
    IslCard(28, "Red", "colors", Beginner, false, false),
    IslCard(29, "Blue", "colors", Beginner, false, false),
    IslCard(30, "Green", "colors", Beginner, false, false)
  ]

  /** `islCards`, in the order of the source's category blocks. */
  const IslCards: seq<IslCard> :=
    GreetingCards + NeedCards + EmergencyCards + PeopleCards + EmotionCards + NumberCards + ColorCards

  /** `a` is `b` with some elements left out and the rest kept in order. */
  predicate IsSubsequence<T(==)>(a: seq<T>, b: seq<T>)
    decreases |b|
  {
    if a == [] then true
    else if b == [] then false
    else if a[0] == b[0] then IsSubsequence(a[1..], b[1..])
    else IsSubsequence(a, b[1..])
  }

  /** `cards.filter(card => card.category === category)`. */
  function FilterByCategory(cards: seq<IslCard>, category: string): (r: seq<IslCard>)
    ensures IsSubsequence(r, cards)
    ensures forall i :: 0 <= i < |r| ==> r[i].category == category
    ensures forall i :: 0 <= i < |cards| && cards[i].category == category ==> cards[i] in r
  {
    if cards == [] then []
    else
      var rest := FilterByCategory(cards[1..], category);
      assert forall i :: 1 <= i < |cards| && cards[i].category == category ==> cards[i] in rest by {
        forall i | 1 <= i < |cards| && cards[i].category == category ensures cards[i] in rest {
          assert cards[i] == cards[1..][i - 1];
        }
      }
      if cards[0].category == category then [cards[0]] + rest else rest
  }

  /** The filter keeps every matching card as often as it occurs, and no other card. */
  lemma {:induction false} FilterCounts(cards: seq<IslCard>, category: string)
    ensures forall c :: multiset(FilterByCategory(cards, category))[c]
                        == if c.category == category then multiset(cards)[c] else 0
    decreases |cards|
  {
    if cards != [] {
      FilterCounts(cards[1..], category);
      assert cards == [cards[0]] + cards[1..];
    }
  }

  /** Filtering distributes over concatenation. */
  lemma {:induction false} FilterAppend(a: seq<IslCard>, b: seq<IslCard>, category: string)
    ensures FilterByCategory(a + b, category) == FilterByCategory(a, category) + FilterByCategory(b, category)
    decreases |a|
  {
    if a == [] {
      assert a + b == b;
    } else {
      assert (a + b)[1..] == a[1..] + b;
      FilterAppend(a[1..], b, category);
    }
  }

  /** A block of cards that all share one category is kept whole or dropped whole. */
  lemma {:induction false} FilterUniform(cards: seq<IslCard>, blockCategory: string, category: string)
    requires forall i :: 0 <= i < |cards| ==> cards[i].category == blockCategory
    ensures FilterByCategory(cards, category) == if category == blockCategory then cards else []
    decreases |cards|
  {
    if cards != [] {
      FilterUniform(cards[1..], blockCategory, category);
    }
  }

  /** Filtering seven blocks laid end to end counts the matches of each block. */
  lemma FilterBlocks(b1: seq<IslCard>, b2: seq<IslCard>, b3: seq<IslCard>, b4: seq<IslCard>,
                     b5: seq<IslCard>, b6: seq<IslCard>, b7: seq<IslCard>, category: string)
    ensures |FilterByCategory(b1 + b2 + b3 + b4 + b5 + b6 + b7, category)|
            == |FilterByCategory(b1, category)| + |FilterByCategory(b2, category)|
               + |FilterByCategory(b3, category)| + |FilterByCategory(b4, category)|
               + |FilterByCategory(b5, category)| + |FilterByCategory(b6, category)|
               + |FilterByCategory(b7, category)|
  {
    FilterAppend(b1 + b2 + b3 + b4 + b5 + b6, b7, category);
    FilterAppend(b1 + b2 + b3 + b4 + b5, b6, category);
    FilterAppend(b1 + b2 + b3 + b4, b5, category);
    FilterAppend(b1 + b2 + b3, b4, category);
    FilterAppend(b1 + b2, b3, category);
    FilterAppend(b1, b2, category);
  }

  /** How many of a one-category block of `n` cards a filter keeps. */
  lemma BlockShare(block: seq<IslCard>, blockCategory: string, category: string, n: nat)
    requires forall i :: 0 <= i < |block| ==> block[i].category == blockCategory
    requires |block| == n
    ensures |FilterByCategory(block, category)| == if category == blockCategory then n else 0
  {
    FilterUniform(block, blockCategory, category);
  }

  /** Each block holds the cards of one category. */
  lemma BlocksUniform()
    ensures forall i :: 0 <= i < |GreetingCards| ==> GreetingCards[i].category == "greetings"
    ensures forall i :: 0 <= i < |NeedCards| ==> NeedCards[i].category == "needs"
    ensures forall i :: 0 <= i < |EmergencyCards| ==> EmergencyCards[i].category == "emergency"
    ensures forall i :: 0 <= i < |PeopleCards| ==> PeopleCards[i].category == "people"
    ensures forall i :: 0 <= i < |EmotionCards| ==> EmotionCards[i].category == "emotions"
    ensures forall i :: 0 <= i < |NumberCards| ==> NumberCards[i].category == "numbers"
    ensures forall i :: 0 <= i < |ColorCards| ==> ColorCards[i].category == "colors"
  {
  }

  /** The size of a category's filter over the whole list, block by block. */
  lemma FilterSizes(category: string)
    ensures |FilterByCategory(IslCards, category)|
            == (if category == "greetings" then 6 else 0) + (if category == "needs" then 5 else 0)
               + (if category == "emergency" then 4 else 0) + (if category == "people" then 4 else 0)
               + (if category == "emotions" then 4 else 0) + (if category == "numbers" then 4 else 0)
               + (if category == "colors" then 3 else 0)
  {
    FilterBlocks(GreetingCards, NeedCards, EmergencyCards, PeopleCards, EmotionCards, NumberCards, ColorCards, category);
    BlockShares(category);
  }

  lemma BlockShares(category: string)
    ensures |FilterByCategory(GreetingCards, category)| == if category == "greetings" then 6 else 0
    ensures |FilterByCategory(NeedCards, category)| == if category == "needs" then 5 else 0
    ensures |FilterByCategory(EmergencyCards, category)| == if category == "emergency" then 4 else 0
    ensures |FilterByCategory(PeopleCards, category)| == if category == "people" then 4 else 0
    ensures |FilterByCategory(EmotionCards, category)| == if category == "emotions" then 4 else 0
    ensures |FilterByCategory(NumberCards, category)| == if category == "numbers" then 4 else 0
    ensures |FilterByCategory(ColorCards, category)| == if category == "colors" then 3 else 0
  {
    BlocksUniform();
    BlockShare(GreetingCards, "greetings", category, 6);
    BlockShare(NeedCards, "needs", category, 5);
    BlockShare(EmergencyCards, "emergency", category, 4);
    BlockShare(PeopleCards, "people", category, 4);
    BlockShare(EmotionCards, "emotions", category, 4);
    BlockShare(NumberCards, "numbers", category, 4);
    BlockShare(ColorCards, "colors", category, 3);
  }

  /** `filteredCards`: the whole list for "all", otherwise the cards of the selected category. */
  function FilteredCards(selectedCategory: string): (r: seq<IslCard>)
    ensures selectedCategory == "all" ==> r == IslCards
    ensures selectedCategory != "all" ==> IsSubsequence(r, IslCards)
    ensures selectedCategory != "all" ==> forall i :: 0 <= i < |r| ==> r[i].category == selectedCategory
    ensures selectedCategory != "all" ==>
              forall i :: 0 <= i < |IslCards| && IslCards[i].category == selectedCategory ==> IslCards[i] in r
  {
    if selectedCategory == "all" then IslCards else FilterByCategory(IslCards, selectedCategory)
  }

  /** A selected category shows each of its cards as often as the list holds it. */
  lemma FilteredCardsCounts(selectedCategory: string)
    ensures selectedCategory != "all" ==>
              forall c :: multiset(FilteredCards(selectedCategory))[c]
                          == if c.category == selectedCategory then multiset(IslCards)[c] else 0
  {
    FilterCounts(IslCards, selectedCategory);
  }

  /** One category button: its id, its label and the count on its badge. */
  datatype CategoryTab = CategoryTab(id: string, caption: string, count: nat)

  /** `categories`. */
  function Categories(): seq<CategoryTab> {
    [
      CategoryTab("all", "All Categories", |IslCards|),
      CategoryTab("greetings", "Greetings", |FilterByCategory(IslCards, "greetings")|),
      CategoryTab("needs", "Basic Needs", |FilterByCategory(IslCards, "needs")|),
      CategoryTab("emergency", "Emergency", |FilterByCategory(IslCards, "emergency")|),
      CategoryTab("people", "People", |FilterByCategory(IslCards, "people")|),
      CategoryTab("emotions", "Emotions", |FilterByCategory(IslCards, "emotions")|),
      CategoryTab("numbers", "Numbers", |FilterByCategory(IslCards, "numbers")|),
      CategoryTab("colors", "Colors", |FilterByCategory(IslCards, "colors")|)
    ]
  }

  /** The ids a category button can select. */
  const CategoryIds: seq<string> := ["all", "greetings", "needs", "emergency", "people", "emotions", "numbers", "colors"]

  predicate IsCategoryId(id: string) {
    id in CategoryIds
  }

  /** The buttons are the category ids, in order. */
  lemma CategoryIdsAreTabs()
    ensures |Categories()| == |CategoryIds|
    ensures forall i :: 0 <= i < |CategoryIds| ==> Categories()[i].id == CategoryIds[i]
  {
  }

  /** Each badge shows the size of what selecting its button displays; "all" shows the total. */
  lemma CategoryCountsMatchFilters()
    ensures forall tab :: tab in Categories() ==> tab.count == |FilteredCards(tab.id)|
    ensures Categories()[0].id == "all" && Categories()[0].count == |IslCards|
  {
  }

  /** The badge counts: 30 in all; 6, 5, 4, 4, 4, 4 and 3 per category. The seven
      categories partition the list. */
  lemma CategoryCounts()
    ensures |IslCards| == 30
    ensures [Categories()[1].count, Categories()[2].count, Categories()[3].count, Categories()[4].count,
             Categories()[5].count, Categories()[6].count, Categories()[7].count] == [6, 5, 4, 4, 4, 4, 3]
    ensures Categories()[1].count + Categories()[2].count + Categories()[3].count + Categories()[4].count
            + Categories()[5].count + Categories()[6].count + Categories()[7].count == Categories()[0].count
  {
    FilterSizes("greetings");
    FilterSizes("needs");
    FilterSizes("emergency");
    FilterSizes("people");
    FilterSizes("emotions");
    FilterSizes("numbers");
    FilterSizes("colors");
  }

  /** Every button selects a non-empty list, so a session can always start. */
  lemma EveryCategoryNonEmpty(id: string)
    requires IsCategoryId(id)
    ensures |FilteredCards(id)| > 0
  {
    FilterSizes(id);
  }

  /** `cards.filter(card => card.completed).length`. */
  function CompletedCount(cards: seq<IslCard>): (n: nat)
    ensures n <= |cards|
  {
    if cards == [] then 0 else (if cards[0].completed then 1 else 0) + CompletedCount(cards[1..])
  }

  /** The number of cards not yet completed. */
  function UncompletedCount(cards: seq<IslCard>): nat {
    if cards == [] then 0 else (if cards[0].completed then 0 else 1) + UncompletedCount(cards[1..])
  }

  /** The "Remaining" figure, total minus completed, counts exactly the cards not completed. */
  lemma {:induction false} RemainingIsUncompleted(cards: seq<IslCard>)
    ensures |cards| - CompletedCount(cards) == UncompletedCount(cards)
    decreases |cards|
  {
    if cards != [] {
      RemainingIsUncompleted(cards[1..]);
    }
  }

  lemma {:induction false} CompletedAppend(a: seq<IslCard>, b: seq<IslCard>)
    ensures CompletedCount(a + b) == CompletedCount(a) + CompletedCount(b)
    decreases |a|
  {
    if a == [] {
      assert a + b == b;
    } else {
      assert (a + b)[1..] == a[1..] + b;
      CompletedAppend(a[1..], b);
    }
  }

  lemma {:induction false} NoneCompleted(cards: seq<IslCard>)
    requires forall i :: 0 <= i < |cards| ==> !cards[i].completed
    ensures CompletedCount(cards) == 0
    decreases |cards|
  {
    if cards != [] {
      NoneCompleted(cards[1..]);
    }
  }

  /** `completedCards` is 2 (Hello and Thank You) and "Remaining" is 28. */
  lemma CompletedCards()
    ensures CompletedCount(IslCards) == 2
    ensures |IslCards| - CompletedCount(IslCards) == 28
  {
    GreetingsCompleted();
    OtherBlocksNotCompleted();
    CompletedOfBlocks(GreetingCards, NeedCards, EmergencyCards, PeopleCards, EmotionCards, NumberCards, ColorCards);
    assert |IslCards| == 30;
  }

  lemma CompletedOfBlocks(b1: seq<IslCard>, b2: seq<IslCard>, b3: seq<IslCard>, b4: seq<IslCard>,
                          b5: seq<IslCard>, b6: seq<IslCard>, b7: seq<IslCard>)
    ensures CompletedCount(b1 + b2 + b3 + b4 + b5 + b6 + b7)
            == CompletedCount(b1) + CompletedCount(b2) + CompletedCount(b3) + CompletedCount(b4)
               + CompletedCount(b5) + CompletedCount(b6) + CompletedCount(b7)
  {
    CompletedAppend(b1 + b2 + b3 + b4 + b5 + b6, b7);
    CompletedAppend(b1 + b2 + b3 + b4 + b5, b6);
    CompletedAppend(b1 + b2 + b3 + b4, b5);
    CompletedAppend(b1 + b2 + b3, b4);
    CompletedAppend(b1 + b2, b3);
    CompletedAppend(b1, b2);
  }

  /** Hello and Thank You are the completed greetings. */
  lemma GreetingsCompleted()
    ensures CompletedCount(GreetingCards) == 2
  {
    var g := GreetingCards;
    assert g[0].completed && g[1].completed;
    NoneCompleted(g[2..]);
    assert g[1..][1..] == g[2..];
  }

  lemma OtherBlocksNotCompleted()
    ensures CompletedCount(NeedCards) == 0 && CompletedCount(EmergencyCards) == 0
    ensures CompletedCount(PeopleCards) == 0 && CompletedCount(EmotionCards) == 0
    ensures CompletedCount(NumberCards) == 0 && CompletedCount(ColorCards) == 0
  {
    NoneCompleted(NeedCards);
    NoneCompleted(EmergencyCards);
    NoneCompleted(PeopleCards);
    NoneCompleted(EmotionCards);
    NoneCompleted(NumberCards);
    NoneCompleted(ColorCards);
  }

  /** The answer check of `checkAnswer`: equal after `toLowerCase()`. */
  predicate IsCorrectAnswer(answer: string, word: string) {
    ToLower(answer) == ToLower(word)
  }

  /** The check ignores case on either side, and the card's own word is always right. */
  lemma AnswerIgnoresCase(answer: string, word: string)
    ensures IsCorrectAnswer(answer, word) <==> IsCorrectAnswer(ToLower(answer), word)
    ensures IsCorrectAnswer(answer, word) <==> IsCorrectAnswer(answer, ToLower(word))
    ensures IsCorrectAnswer(word, word)
  {
    ToLowerIdempotent(answer);
    ToLowerIdempotent(word);
  }

  /** The state of the learning page. */
  class LearnPage {
    var selectedCategory: string
    var practiceMode: bool
    var currentCardIndex: int
    var showAnswer: bool
    var score: int
    var quizMode: bool
    var selectedAnswer: string
    var quizCompleted: bool

    /** The category is one a button offers, and during a session the index points at a card. */
    ghost predicate Valid()
      reads this
    {
      IsCategoryId(selectedCategory) && currentCardIndex >= 0 && score >= 0
      && ((practiceMode || quizMode) ==> currentCardIndex < |FilteredCards(selectedCategory)|)
    }

    constructor ()
      ensures Valid()
      ensures selectedCategory == "all" && !practiceMode && !quizMode && !quizCompleted
      ensures currentCardIndex == 0 && !showAnswer && score == 0 && selectedAnswer == ""
    {
      selectedCategory := "all";
      practiceMode := false;
      currentCardIndex := 0;
      showAnswer := false;
      score := 0;
      quizMode := false;
      selectedAnswer := "";
      quizCompleted := false;
    }

    /** A category button; the buttons are disabled during a session. */
    method SelectCategory(id: string)
      requires Valid() && IsCategoryId(id) && !practiceMode && !quizMode
      modifies this
      ensures Valid()
      ensures selectedCategory == id
      ensures practiceMode == old(practiceMode) && quizMode == old(quizMode)
      ensures currentCardIndex == old(currentCardIndex) && showAnswer == old(showAnswer)
      ensures score == old(score) && selectedAnswer == old(selectedAnswer)
      ensures quizCompleted == old(quizCompleted)
    {
      selectedCategory := id;
    }

    /** `startPractice`. */
    method StartPractice()
      requires Valid()
      modifies this
      ensures Valid()
      ensures practiceMode && currentCardIndex == 0 && !showAnswer && score == 0
      ensures currentCardIndex < |FilteredCards(selectedCategory)|
      ensures selectedCategory == old(selectedCategory) && quizMode == old(quizMode)
      ensures selectedAnswer == old(selectedAnswer) && quizCompleted == old(quizCompleted)
    {
      EveryCategoryNonEmpty(selectedCategory);
      practiceMode := true;
      currentCardIndex := 0;
      showAnswer := false;
      score := 0;
    }

    /** `startQuiz`. */
    method StartQuiz()
      requires Valid()
      modifies this
      ensures Valid()
      ensures quizMode && currentCardIndex == 0 && selectedAnswer == "" && score == 0 && !quizCompleted
      ensures currentCardIndex < |FilteredCards(selectedCategory)|
      ensures selectedCategory == old(selectedCategory) && practiceMode == old(practiceMode)
      ensures showAnswer == old(showAnswer)
    {
      EveryCategoryNonEmpty(selectedCategory);
      quizMode := true;
      currentCardIndex := 0;
      selectedAnswer := "";
      score := 0;
      quizCompleted := false;
    }

    /** `nextCard`: advance, or finish the session on the last card. */
    method NextCard()
      requires Valid()
      modifies this
      ensures Valid()
      ensures old(currentCardIndex) < |FilteredCards(selectedCategory)| - 1 ==>
                currentCardIndex == old(currentCardIndex) + 1 && !showAnswer && selectedAnswer == ""
                && practiceMode == old(practiceMode) && quizMode == old(quizMode)
                && quizCompleted == old(quizCompleted)
      ensures old(currentCardIndex) >= |FilteredCards(selectedCategory)| - 1 ==>
                !practiceMode && !quizMode && quizCompleted && currentCardIndex == old(currentCardIndex)
                && showAnswer == old(showAnswer) && selectedAnswer == old(selectedAnswer)
      ensures selectedCategory == old(selectedCategory) && score == old(score)
    {
      if currentCardIndex < |FilteredCards(selectedCategory)| - 1 {
        currentCardIndex := currentCardIndex + 1;
        showAnswer := false;
        selectedAnswer := "";
      } else {
        practiceMode := false;
        quizMode := false;
        quizCompleted := true;
      }
    }

    /** `previousCard`: step back unless on the first card. */
    method PreviousCard()
      requires Valid()
      modifies this
      ensures Valid()
      ensures old(currentCardIndex) > 0 ==>
                currentCardIndex == old(currentCardIndex) - 1 && !showAnswer && selectedAnswer == ""
      ensures old(currentCardIndex) == 0 ==>
                currentCardIndex == 0 && showAnswer == old(showAnswer) && selectedAnswer == old(selectedAnswer)
      ensures selectedCategory == old(selectedCategory) && practiceMode == old(practiceMode)
      ensures quizMode == old(quizMode) && score == old(score) && quizCompleted == old(quizCompleted)
    {
      if currentCardIndex > 0 {
        currentCardIndex := currentCardIndex - 1;
        showAnswer := false;
        selectedAnswer := "";
      }
    }

    /** The show/hide answer button of practice mode. */
    method ToggleAnswer()
      requires Valid()
      modifies this`showAnswer
      ensures Valid()
      ensures showAnswer == !old(showAnswer)
    {
      showAnswer := !showAnswer;
    }

    /** `checkAnswer`: the answer buttons exist only in quiz mode, on a card that exists. */
    method CheckAnswer(answer: string)
      requires Valid() && quizMode
      modifies this`selectedAnswer, this`score
      ensures Valid()
      ensures selectedAnswer == answer
      ensures IsCorrectAnswer(answer, FilteredCards(selectedCategory)[currentCardIndex].word) ==> score == old(score) + 1
      ensures !IsCorrectAnswer(answer, FilteredCards(selectedCategory)[currentCardIndex].word) ==> score == old(score)
    {
      selectedAnswer := answer;
      var currentCard := FilteredCards(selectedCategory)[currentCardIndex];
      if ToLower(answer) == ToLower(currentCard.word) {
        score := score + 1;
      }
    }

    /** `resetLearning`: back to the state the page starts in, keeping the category. */
    method ResetLearning()
      requires Valid()
      modifies this
      ensures Valid()
      ensures !practiceMode && !quizMode && currentCardIndex == 0 && !showAnswer
      ensures score == 0 && selectedAnswer == "" && !quizCompleted
      ensures selectedCategory == old(selectedCategory)
    {
      practiceMode := false;
      quizMode := false;
      currentCardIndex := 0;
      showAnswer := false;
      score := 0;
      selectedAnswer := "";
      quizCompleted := false;
    }
  }

  /** A user action on the page. */
  datatype Action = Select(id: string) | Practice | Quiz | Next | Previous | Toggle | Answer(answer: string) | Reset

  /** Whether the page lets the user take the action now (rendered and enabled). */
  predicate Enabled(page: LearnPage, a: Action)
    reads page
  {
    match a
    case Select(id) => IsCategoryId(id) && !page.practiceMode && !page.quizMode
    case Answer(_) => page.quizMode
    case _ => true
  }

  /** Any run of enabled actions keeps the page valid: once a session has started,
      the card index stays within the filtered cards under every next/previous. */
  method RunActions(page: LearnPage, actions: seq<Action>)
    requires page.Valid()
    modifies page
    ensures page.Valid()
    ensures (page.practiceMode || page.quizMode) ==>
              0 <= page.currentCardIndex < |FilteredCards(page.selectedCategory)|
  {
    var k := 0;
    while k < |actions|
      invariant 0 <= k <= |actions|
      invariant page.Valid()
    {
      var a := actions[k];
      if Enabled(page, a) {
        match a
        case Select(id) => page.SelectCategory(id);
        case Practice => page.StartPractice();
        case Quiz => page.StartQuiz();
        case Next => page.NextCard();
        case Previous => page.PreviousCard();
        case Toggle => page.ToggleAnswer();
        case Answer(answer) => page.CheckAnswer(answer);
        case Reset => page.ResetLearning();
      }
      k := k + 1;
    }
  }
}
