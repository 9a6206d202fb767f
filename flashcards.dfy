/** The flashcard navigator of `Flashcards.tsx`: a deck fixed at mount time, the index
    of the card shown and whether its answer side is up. */
module FlashcardDeck {

  datatype Card = Card(question: string, answer: string)

  /** `handlePrevious`'s index update: step back, wrapping from the first card to the last. */
  function PrevIndex(i: nat, n: nat): (r: nat)
    requires i < n
    ensures r < n
    ensures r == (i + n - 1) % n
  {
    if i == 0 then
      ModOfRepresentation(i + n - 1, n, 0, n - 1);
      n - 1
    else
      ModOfRepresentation(i + n - 1, n, 1, i - 1);
      i - 1
  }

  /** `handleNext`'s index update: step forward, wrapping from the last card to the first. */
  function NextIndex(i: nat, n: nat): (r: nat)
    requires i < n
    ensures r < n
    ensures r == (i + 1) % n
  {
    if i == n - 1 then
      ModOfRepresentation(i + 1, n, 1, 0);
      0
    else
      ModOfRepresentation(i + 1, n, 0, i + 1);
      i + 1
  }

  /** Next then previous, and previous then next, come back to the same card. */
  lemma PrevNextRoundTrip(i: nat, n: nat)
    requires i < n
    ensures PrevIndex(NextIndex(i, n), n) == i
    ensures NextIndex(PrevIndex(i, n), n) == i
  {
  }

  /** The index after `k` presses of "next". */
  function NextTimes(i: nat, n: nat, k: nat): (r: nat)
    requires i < n
    ensures r < n
  {
    if k == 0 then i else NextIndex(NextTimes(i, n, k - 1), n)
  }

  /** `k` presses of "next" advance by `k` modulo the deck size; in particular a full
      round of `n` presses comes back to the starting card. */
  lemma {:induction false} NextTimesIsRotation(i: nat, n: nat, k: nat)
    requires i < n
    ensures NextTimes(i, n, k) == (i + k) % n
  {
    if k > 0 {
      NextTimesIsRotation(i, n, k - 1);
      ModSucc(i + k - 1, n);
    }
  }

  /** Adding one to a number adds one to its remainder, wrapping at `n`. */
  lemma ModSucc(a: nat, n: nat)
    requires n > 0
    ensures (a + 1) % n == if a % n == n - 1 then 0 else a % n + 1
  {
    var q, r := a / n, a % n;
    assert a == q * n + r;
    if r == n - 1 {
      assert a + 1 == (q + 1) * n + 0;
      ModOfRepresentation(a + 1, n, q + 1, 0);
    } else {
      ModOfRepresentation(a + 1, n, q, r + 1);
    }
  }

  lemma FullRoundReturns(i: nat, n: nat)
    requires i < n
    ensures NextTimes(i, n, n) == i
  {
    NextTimesIsRotation(i, n, n);
    ModOfRepresentation(i + n, n, 1, i);
  }

  /** Euclidean remainder is determined by any quotient/remainder representation. */
  lemma ModOfRepresentation(x: int, n: int, q: int, r: int)
    requires n > 0 && 0 <= r < n && x == q * n + r
    ensures x % n == r
  {
    var q', r' := x / n, x % n;
    assert (q - q') * n == r' - r;
    if q - q' >= 1 {
      MulAtLeast(q - q', n);
    } else if q' - q >= 1 {
      MulAtLeast(q' - q, n);
    }
  }

  lemma MulAtLeast(d: int, n: int)
    requires d >= 1 && n > 0
    ensures d * n >= n
  {
  }

  class Deck {
    const cards: seq<Card>
    var currentIndex: nat
    var isFlipped: bool

    /** The index names a card, or is 0 for the empty deck. */
    ghost predicate Valid()
      reads this
    {
      currentIndex < |cards| || (|cards| == 0 && currentIndex == 0)
    }

    /** The "No flashcards available yet." view: no navigation control is rendered. */
    predicate IsEmpty()
      reads this
    {
      |cards| == 0
    }

    constructor (cards: seq<Card>)
      ensures this.cards == cards && currentIndex == 0 && !isFlipped
      ensures Valid()
    {
      this.cards := cards;
      currentIndex := 0;
      isFlipped := false;
    }

    /** The text on the visible face of the current card: always one of its two faces.
        `Previous`, `Next` and `JumpTo` show the new card's question; `Flip` shows the
        other face of the same card. */
    function Shown(): (text: string)
      reads this
      requires Valid() && !IsEmpty()
      ensures text == cards[currentIndex].question || text == cards[currentIndex].answer
    {
      var card := cards[currentIndex];
      if isFlipped then card.answer else card.question
    }

    method Previous()
      requires Valid() && !IsEmpty()
      modifies this
      ensures Valid()
      ensures currentIndex == PrevIndex(old(currentIndex), |cards|) && !isFlipped
      ensures Shown() == cards[currentIndex].question
    {
      isFlipped := false;
      currentIndex := PrevIndex(currentIndex, |cards|);
    }

    method Next()
      requires Valid() && !IsEmpty()
      modifies this
      ensures Valid()
      ensures currentIndex == NextIndex(old(currentIndex), |cards|) && !isFlipped
      ensures Shown() == cards[currentIndex].question
    {
      isFlipped := false;
      currentIndex := NextIndex(currentIndex, |cards|);
    }

    /** Turn the card over; the index stays. Flipping twice restores the face. */
    method Flip()
      requires Valid() && !IsEmpty()
      modifies this
      ensures Valid()
      ensures isFlipped == !old(isFlipped) && currentIndex == old(currentIndex)
      ensures Shown() == if old(isFlipped) then cards[currentIndex].question else cards[currentIndex].answer
    {
      isFlipped := !isFlipped;
    }

    /** A click on the progress dot of card `index`: one dot is rendered per card. */
    method JumpTo(index: nat)
      requires Valid() && index < |cards|
      modifies this
      ensures Valid()
      ensures currentIndex == index && !isFlipped
      ensures Shown() == cards[index].question
    {
      isFlipped := false;
      currentIndex := index;
    }
  }
}
