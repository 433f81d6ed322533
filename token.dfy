/**
 * Token limits and token budgets (pkg/types/token.go).  Go's `int` is modelled as an
 * unbounded integer; a limit of zero means "no limit".
 */
module Token {

  function Max(a: int, b: int): int {
    if a >= b then a else b
  }

  datatype TokenLimit = TokenLimit(
    model: string,
    maxTokens: int,
    maxInputTokens: int,
    maxOutputTokens: int,
    maxContextTokens: int)
  {
    /**
     * TokenLimit.CanAccommodate: every positive limit is respected -- the total by the
     * sum, the input limit by the prompt, the output limit by the completion.
     */
    function CanAccommodate(promptTokens: int, completionTokens: int): (ok: bool)
      ensures ok <==> (maxTokens > 0 ==> promptTokens + completionTokens <= maxTokens)
                      && (maxInputTokens > 0 ==> promptTokens <= maxInputTokens)
                      && (maxOutputTokens > 0 ==> completionTokens <= maxOutputTokens)
    {
      var totalNeeded := promptTokens + completionTokens;
      if maxTokens > 0 && totalNeeded > maxTokens then false
      else if maxInputTokens > 0 && promptTokens > maxInputTokens then false
      else if maxOutputTokens > 0 && completionTokens > maxOutputTokens then false
      else true
    }

    /**
     * TokenLimit.AvailableOutputTokens: start from the output limit (or the total limit
     * when there is none), cap it by what the prompt leaves of a positive total limit,
     * and clamp at zero.
     */
    function AvailableOutputTokens(promptTokens: int): (r: int)
      ensures r >= 0
      ensures maxTokens > 0 ==> r <= Max(0, maxTokens - promptTokens)
      ensures maxOutputTokens > 0 ==> r <= maxOutputTokens
    {
      var start := if maxOutputTokens == 0 then maxTokens else maxOutputTokens;
      var available := if maxTokens > 0 && maxTokens - promptTokens < start then maxTokens - promptTokens else start;
      if available < 0 then 0 else available
    }
  }

  /** A limit with every field zero accepts any counts. */
  lemma UnlimitedAccommodatesAll(l: TokenLimit, promptTokens: int, completionTokens: int)
    requires l.maxTokens == 0 && l.maxInputTokens == 0 && l.maxOutputTokens == 0
    ensures l.CanAccommodate(promptTokens, completionTokens)
  {
  }

  /** Asking for fewer tokens never turns an accepted request into a rejected one. */
  lemma AccommodateIsMonotone(l: TokenLimit, p: int, c: int, p': int, c': int)
    requires l.CanAccommodate(p, c)
    requires p' <= p && c' <= c
    ensures l.CanAccommodate(p', c')
  {
  }

  /**
   * The output allowance fits: the prompt together with AvailableOutputTokens is
   * accommodated exactly when the prompt alone is.
   */
  lemma AvailableOutputFits(l: TokenLimit, promptTokens: int)
    ensures l.CanAccommodate(promptTokens, l.AvailableOutputTokens(promptTokens))
            <==> l.CanAccommodate(promptTokens, 0)
  {
  }

  /**
   * The output allowance is the largest that fits, when some positive limit bounds the
   * output and counts and the output limit are not negative.
   */
  lemma AvailableOutputIsMaximal(l: TokenLimit, promptTokens: int, completionTokens: int)
    requires promptTokens >= 0 && completionTokens >= 0 && l.maxOutputTokens >= 0
    requires l.maxTokens > 0 || l.maxOutputTokens > 0
    requires l.CanAccommodate(promptTokens, completionTokens)
    ensures completionTokens <= l.AvailableOutputTokens(promptTokens)
  {
  }

  /**
   * With neither a total nor an output limit, AvailableOutputTokens is 0 although
   * CanAccommodate accepts any completion size.
   */
  lemma NoLimitsLeaveNoOutput(l: TokenLimit, promptTokens: int, completionTokens: int)
    requires l.maxTokens == 0 && l.maxOutputTokens == 0 && l.maxInputTokens == 0
    ensures l.AvailableOutputTokens(promptTokens) == 0
    ensures l.CanAccommodate(promptTokens, completionTokens)
  {
  }

  /** The remaining budget for given totals: what is left after use and the output reserve, never below 0. */
  function RemainingOf(total: int, used: int, reserved: int): (r: int)
    ensures r >= 0 && r >= total - used - reserved
    ensures r == 0 || r == total - used - reserved
  {
    var remaining := total - used - reserved;
    if remaining < 0 then 0 else remaining
  }

  /** A successful use of t >= 0 tokens lowers the remaining budget by exactly t. */
  lemma UseLowersRemaining(total: int, used: int, reserved: int, tokens: int)
    requires tokens >= 0 && RemainingOf(total, used, reserved) >= tokens
    ensures RemainingOf(total, used + tokens, reserved) == RemainingOf(total, used, reserved) - tokens
  {
  }

  /** TokenBudget: a total, an output reserve and a mutable count of used tokens. */
  class TokenBudget {
    var totalBudget: int
    var reservedForOutput: int
    var used: int

    /** NewTokenBudget: nothing used yet. */
    constructor (total: int, reservedForOutput: int)
      ensures totalBudget == total && this.reservedForOutput == reservedForOutput && used == 0
    {
      totalBudget := total;
      this.reservedForOutput := reservedForOutput;
      used := 0;
    }

    /** TokenBudget.Remaining: max(0, total - used - reserved). */
    function Remaining(): (r: int)
      reads this
      ensures r == Max(0, totalBudget - used - reservedForOutput)
    {
      RemainingOf(totalBudget, used, reservedForOutput)
    }

    /** TokenBudget.CanUse. */
    function CanUse(tokens: int): (ok: bool)
      reads this
      ensures ok <==> tokens <= Max(0, totalBudget - used - reservedForOutput)
    {
      Remaining() >= tokens
    }

    /**
     * TokenBudget.Use: records the tokens only when they fit; the total and the reserve
     * never change.  A successful use of t >= 0 tokens lowers Remaining by t.
     */
    method Use(tokens: int) returns (ok: bool)
      modifies this`used
      ensures ok == old(CanUse(tokens))
      ensures used == if ok then old(used) + tokens else old(used)
      ensures ok && tokens >= 0 ==> Remaining() == old(Remaining()) - tokens
    {
      if !CanUse(tokens) {
        return false;
      }
      used := used + tokens;
      return true;
    }

    /** TokenBudget.Reset. */
    method Reset()
      modifies this`used
      ensures used == 0
    {
      used := 0;
    }

    /** TokenBudget.AvailableForPrompt: the remaining budget. */
    function AvailableForPrompt(): (r: int)
      reads this
      ensures r == Remaining()
    {
      Remaining()
    }

    /** TokenBudget.AvailableForOutput: the output reserve. */
    function AvailableForOutput(): (r: int)
      reads this
      ensures r == reservedForOutput
    {
      reservedForOutput
    }
  }
}
