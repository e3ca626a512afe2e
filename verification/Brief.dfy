/** The self-describing token count at the end of the brief (spoolctl/schemas.py). */
module Brief {
  import opened Decimal

  const BRIEF_BUDGET_TOKENS := 700

  /** ceil(len / 4). */
  function ApproxTokens(text: string): nat {
    (|text| + 3) / 4
  }

  /** A token stands for at most four characters, and no token is counted in vain. */
  lemma TokensCoverText(text: string)
    ensures 4 * ApproxTokens(text) >= |text|
    ensures forall t: nat :: 4 * t >= |text| ==> ApproxTokens(text) <= t
  {
  }

  function Stated(prefix: string, tokens: nat): string {
    prefix + "\n~" + Dec(tokens) + " tokens (budget " + Dec(BRIEF_BUDGET_TOKENS) + ")."
  }

  /** What the text comes to when it states `tokens`. */
  function Recount(prefix: string, tokens: nat): nat {
    ApproxTokens(Stated(prefix, tokens))
  }

  /** Stating more never makes the text count less, and from some number on it counts no more than it states. */
  lemma RecountMonotone(prefix: string, m: nat, n: nat)
    requires m <= n
    ensures Recount(prefix, m) <= Recount(prefix, n)
    ensures ApproxTokens(prefix) <= Recount(prefix, m)
    ensures Recount(prefix, |prefix| + 40) <= |prefix| + 40
  {
    DecLengthMonotone(m, n);
    DecLengthMonotone(0, |prefix| + 40);
    BudgetDigits();
  }

  lemma BudgetDigits()
    ensures |Dec(BRIEF_BUDGET_TOKENS)| == 3
  {
    assert Dec(7) == "7" && |Dec(70)| == 2;
  }

  /** The loop that appends the count until the count is right. It ends for every prefix: the iterates ascend and
      are bounded. The text it returns states exactly its own count, and that count is the least that can be stated. */
  method BuildBrief(prefix: string) returns (text: string, tokens: nat)
    ensures text == Stated(prefix, tokens) && tokens == ApproxTokens(text)
    ensures text == prefix + "\n~" + Dec(tokens) + " tokens (budget 700)."
    ensures NumberOf(Dec(tokens)) == tokens && 4 * tokens >= |text| > 4 * (tokens - 1)
    ensures forall t: nat :: Recount(prefix, t) == t ==> tokens <= t
  {
    StatedText(prefix);
    hide Stated, ApproxTokens;
    tokens := ApproxTokens(prefix);
    RecountMonotone(prefix, 0, 0);
    LeastStart(prefix);
    ghost var bound := |prefix| + 40;
    RecountMonotone(prefix, tokens, bound);
    while true
      invariant tokens <= bound && tokens <= Recount(prefix, tokens)
      invariant forall t: nat :: Recount(prefix, t) == t ==> tokens <= t
      decreases bound - tokens
    {
      text := Stated(prefix, tokens);
      var actual := ApproxTokens(text);
      if actual == tokens {
        DecReadsBack(tokens);
        TokensCoverText(text);
        return;
      }
      RecountMonotone(prefix, tokens, bound);
      RecountMonotone(prefix, tokens, actual);
      forall t: nat | Recount(prefix, t) == t
        ensures actual <= t
      {
        RecountMonotone(prefix, tokens, t);
      }
      tokens := actual;
    }
  }

  lemma StatedText(prefix: string)
    ensures forall t: nat :: Stated(prefix, t) == prefix + "\n~" + Dec(t) + " tokens (budget 700)."
    ensures forall t: nat :: |Stated(prefix, t)| > 0
  {
    assert Dec(7) == "7" && Dec(70) == "70" && Dec(700) == "700";
    forall t: nat
      ensures Stated(prefix, t) == prefix + "\n~" + Dec(t) + " tokens (budget 700)."
    {
      assert " tokens (budget " + "700" + ")." == " tokens (budget 700).";
    }
  }

  lemma LeastStart(prefix: string)
    ensures forall t: nat :: Recount(prefix, t) == t ==> ApproxTokens(prefix) <= t
    ensures ApproxTokens(prefix) <= |prefix| + 40
  {
    forall t: nat | Recount(prefix, t) == t
      ensures ApproxTokens(prefix) <= t
    {
      RecountMonotone(prefix, t, t);
    }
  }
}
