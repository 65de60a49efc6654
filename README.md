# Blackjack hand scorer

This project models the blackjack hand scorer in `src/main.rs` in Dafny and proves properties of the model. It has one module, `Blackjack`, in `blackjack.dfy`.

- `Card` is the source's twelve-variant enum: Ace, Two to Nine, Jack, Queen and King. As in the source, there is no Ten.
- `Hand` is a class with one field, `cards: seq<Card>`. This field is the source's `Vec<Card>`, which only ever grows. `Add` appends a card in place.
- `Hand.Value` is the source's two-pass loop, with the early `break` in the ace loop. It is proved equal to the specification function `HandValue`.
- `HandValue` is the closed form. It is the minimal sum, plus 10 when the hand holds at least one ace and the sum plus 10 is at most 21. In the minimal sum each ace counts 1 and each face card counts 10. `MinSum` and `AceCount` are the two results of the first pass.
- `HandValueIsBestTotal` says what the value means for a blackjack player. Each ace may count as 1 or 11. The value is the largest total that stays at or below 21, or the all-ones total when every choice busts. The lemma also states that at most one ace is ever upgraded.
- The `Test…` methods are the source's unit tests. Each one builds a `Hand` with `Add` and calls `Value` or `IsLoosingHand`. Its `ensures` clause is the expected result.

The names `IsLoosingHand` and `TestIsLoosingHand` keep the source's spelling ("loosing") so they can be traced back to it.

## Model

| member | source | states |
|---|---|---|
| Blackjack.MinCardValue | src/main.rs:39-52 | each card's minimal value is between 1 and 10; it is 1 exactly for an Ace and 10 exactly for Jack, Queen and King |
| Blackjack.MinSum | src/main.rs:36-54 | the first pass's minimal sum is at least the number of cards and at most ten times that number |
| Blackjack.AceCount | src/main.rs:37-40 | the first pass's ace count is at most the number of cards |
| Blackjack.AceCountIsMultiplicity | src/main.rs:37-40 | the ace count equals the number of times Ace occurs in the hand |
| Blackjack.MinSumByCounts | src/main.rs:36-54 | the minimal sum equals the count of each kind of card times that kind's minimal value, summed |
| Blackjack.HandValue | src/main.rs:56-69 | the value is between the minimal sum and the minimal sum plus 10; it is at most 21 when the minimal sum is; it equals the minimal sum when that exceeds 21; it exceeds 21 exactly when the minimal sum does |
| Blackjack.HandValueIsBestTotal | src/main.rs:56-67 | the value is a total the hand reaches with some number of aces counted as 11; if it is at most 21, no total at or below 21 is larger; if it is above 21, every total busts; at most one ace counts as 11 |
| Blackjack.HandValueOrderIndependent | src/main.rs:36-69 | two hands with the same cards in any order have the same minimal sum and the same value |
| Blackjack.Hand.constructor | src/main.rs:22-26 | a new hand holds no cards |
| Blackjack.Hand.Add | src/main.rs:28-30 | the card is appended after the old cards; the minimal sum grows by the card's minimal value; the ace count grows by one exactly for an Ace |
| Blackjack.Hand.Value | src/main.rs:32-70 | the two loops, including the early break, return exactly HandValue of the hand's cards |
| Blackjack.Hand.IsLoosingHand | src/main.rs:72-74 | the hand is losing exactly when its value exceeds 21, which is exactly when its minimal sum exceeds 21 |
| Blackjack.TestEmptyHand | src/main.rs:99-104 | a new hand is worth 0 |
| Blackjack.TestStrongHand | src/main.rs:106-113 | Queen, Ace is worth 21 |
| Blackjack.TestRiskyHand | src/main.rs:115-123 | King, Queen, Ace is worth 21 |
| Blackjack.TestOops | src/main.rs:125-134 | King, Seven, Five is losing and worth 22 |
| Blackjack.TestLowHand | src/main.rs:136-144 | Three, Three, Seven is worth 13 |
| Blackjack.TestFourAces | src/main.rs:146-155 | four aces are worth 14 |
| Blackjack.TestIsLoosingHand | src/main.rs:157-165 | King, Queen, Two is losing |
| Blackjack.TestIsNotLoosingHand | src/main.rs:167-175 | King, Seven, Two is not losing |

## Left out

- `main` (src/main.rs:77-96) is left out. It only builds two demo hands and prints them to the console, using calls that are already modelled.
- The derived `Debug` and `PartialEq` implementations (src/main.rs:1) are left out. Card equality is Dafny's native datatype equality.
- Integer widths are not modelled; integers here are unbounded. In the source `min_hand_value` and `result` are `usize` (the return type fixes them), while `ace_count` (src/main.rs:37) gets no type from its uses, so it takes Rust's default integer type `i32`. A hand of 2^31 aces overflows `ace_count += 1` (src/main.rs:40): a debug or test build panics there, and a release build wraps to a negative count, so the range `0..ace_count` (src/main.rs:57) is empty and the result is the minimal sum, which is what `HandValue` gives for such a hand anyway. The `usize` sum overflows only on targets where that many cards fit, for example after about 4.3 × 10^8 face cards on a 32-bit target. The model leaves out both overflows and the panic.
- The repository's other exercises are not modelled.
