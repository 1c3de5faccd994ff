/** Russian plural-form selection (`declOfNum` in src/lib/utils.js).

    Russian nouns take one of three forms after a numeral: the form used
    after 1 ("1 арт"), after 2-4 ("2 арта") and after 5-20 or 0 ("5 артов").
    `declOfNum` receives the count and the three forms in that order and
    returns one of them.  The choice is made by an index computed from the
    last two decimal digits of the count.
 */
module PluralForms {

  /** The three grammatical forms, in the order the `titles` array lists them. */
  datatype PluralForm = One | Few | Many

  /** Position of a form in the `titles` array. */
  function FormIndex(f: PluralForm): nat
  {
    match f
    case One => 0
    case Few => 1
    case Many => 2
  }

  /** The textbook rule for Russian, stated on digits rather than through
      the source's lookup table: last digit 1 (but not 11) takes the first
      form, last digit 2-4 (but not 12-14) the second, everything else the
      third. */
  function RussianPluralForm(n: nat): PluralForm
  {
    var lastDigit := n % 10;
    var lastTwo := n % 100;
    if lastDigit == 1 && lastTwo != 11 then One
    else if 2 <= lastDigit <= 4 && !(12 <= lastTwo <= 14) then Few
    else Many
  }

  /** The lookup table `cases` of the source: the index for last digits 0..4,
      and at position 5 the index shared by last digits 5..9. */
  const Cases: seq<nat> := [2, 0, 1, 1, 1, 2]

  /** The index `declOfNum` computes for a non-negative count. */
  function PluralIndex(n: nat): (i: nat)
    ensures i < 3
  {
    if n % 100 > 4 && n % 100 < 20 then 2
    else Cases[if n % 10 < 5 then n % 10 else 5]
  }

  /** `declOfNum(number, titles)`: the form of `titles` that goes with
      `number`, which is always the one the Russian rule names. */
  function DeclOfNum<T>(n: nat, titles: seq<T>): (t: T)
    requires |titles| >= 3
    ensures t == titles[FormIndex(RussianPluralForm(n))]
  {
    PluralIndexFollowsRussianRule(n);
    titles[PluralIndex(n)]
  }

  /** The last digit of the last two digits is the last digit. */
  lemma LastDigitOfLastTwo(n: nat)
    ensures (n % 100) % 10 == n % 10
  {
    var r := n % 100;
    var a := 10 * (n / 100) + r / 10;
    assert n == 10 * a + r % 10;
    assert 0 <= r % 10 < 10;
  }

  /** The lookup table picks exactly the form the Russian rule prescribes. */
  lemma PluralIndexFollowsRussianRule(n: nat)
    ensures PluralIndex(n) == FormIndex(RussianPluralForm(n))
  {
    LastDigitOfLastTwo(n);
  }

  /** The case table spelled out, in both directions: teens 5..19 always
      take the third form; otherwise last digit 1 takes the first, 2..4 the
      second, and 0 or 5..9 the third. */
  lemma PluralIndexCases(n: nat)
    ensures 5 <= n % 100 <= 19 ==> PluralIndex(n) == 2
    ensures PluralIndex(n) == 0 <==> !(5 <= n % 100 <= 19) && n % 10 == 1
    ensures PluralIndex(n) == 1 <==> !(5 <= n % 100 <= 19) && 2 <= n % 10 <= 4
    ensures PluralIndex(n) == 2 <==> (5 <= n % 100 <= 19) || n % 10 == 0 || n % 10 >= 5
  {
  }

  /** The 11..14 exceptions: they end in 1..4 but take the third form. */
  lemma TeensTakeManyForm(n: nat)
    requires 11 <= n % 100 <= 14
    ensures 1 <= n % 10 <= 4
    ensures PluralIndex(n) == 2
  {
    LastDigitOfLastTwo(n);
  }

  /** Only the last two digits matter. */
  lemma PluralIndexOfLastTwoDigits(n: nat)
    ensures PluralIndex(n) == PluralIndex(n % 100)
  {
    LastDigitOfLastTwo(n);
  }

  /** The index repeats with period 100. */
  lemma PluralIndexPeriodic(n: nat)
    ensures PluralIndex(n + 100) == PluralIndex(n)
  {
    assert (n + 100) % 100 == n % 100;
    assert (n + 100) % 10 == n % 10;
  }

  /** Adding any number of hundreds leaves the index as it was. */
  lemma {:induction false} PluralIndexPeriodicBy(n: nat, k: nat)
    ensures PluralIndex(n + 100 * k) == PluralIndex(n)
  {
    if k > 0 {
      PluralIndexPeriodicBy(n, k - 1);
      PluralIndexPeriodic(n + 100 * (k - 1));
    }
  }

  /** A few counts and the form they take. */
  lemma PluralIndexExamples()
    ensures PluralIndex(0) == 2 && PluralIndex(1) == 0 && PluralIndex(2) == 1
    ensures PluralIndex(4) == 1 && PluralIndex(5) == 2 && PluralIndex(11) == 2
    ensures PluralIndex(12) == 2 && PluralIndex(20) == 2 && PluralIndex(21) == 0
    ensures PluralIndex(22) == 1 && PluralIndex(111) == 2 && PluralIndex(101) == 0
  {
  }
}
