/** Token usage counters and model descriptions (pkg/types/metadata.go). */
module Metadata {
  import opened Common

  /** The five counters of a Usage record, as a value. */
  datatype UsageCounts = UsageCounts(
    promptTokens: int,
    completionTokens: int,
    totalTokens: int,
    cachedTokens: int,
    reasoningTokens: int)

  /** The zero value `Usage{}`. */
  const ZeroUsage := UsageCounts(0, 0, 0, 0, 0)

  /** Field-wise sum of two sets of counters. */
  function Plus(u: UsageCounts, o: UsageCounts): UsageCounts {
    UsageCounts(u.promptTokens + o.promptTokens, u.completionTokens + o.completionTokens,
                u.totalTokens + o.totalTokens, u.cachedTokens + o.cachedTokens,
                u.reasoningTokens + o.reasoningTokens)
  }

  /** A mutable Usage record; Add updates it in place. */
  class Usage {
    var promptTokens: int
    var completionTokens: int
    var totalTokens: int
    var cachedTokens: int
    var reasoningTokens: int

    /** The current counters. */
    function Counts(): UsageCounts
      reads this
    {
      UsageCounts(promptTokens, completionTokens, totalTokens, cachedTokens, reasoningTokens)
    }

    /** `&Usage{}`: all counters zero. */
    constructor ()
      ensures Counts() == ZeroUsage
    {
      promptTokens, completionTokens, totalTokens, cachedTokens, reasoningTokens := 0, 0, 0, 0, 0;
    }

    /**
     * Usage.Add: a nil argument leaves the counters alone; otherwise each counter grows
     * by the argument's counter, read before the write (so `u.Add(u)` doubles them).
     */
    method Add(other: Usage?)
      modifies this
      ensures other == null ==> Counts() == old(Counts())
      ensures other != null ==> Counts() == Plus(old(Counts()), old(other.Counts()))
    {
      if other == null {
        return;
      }
      promptTokens := promptTokens + other.promptTokens;
      completionTokens := completionTokens + other.completionTokens;
      totalTokens := totalTokens + other.totalTokens;
      cachedTokens := cachedTokens + other.cachedTokens;
      reasoningTokens := reasoningTokens + other.reasoningTokens;
    }
  }

  /** Adding zero counters changes nothing. */
  lemma PlusZero(u: UsageCounts)
    ensures Plus(u, ZeroUsage) == u && Plus(ZeroUsage, u) == u
  {
  }

  /** Adding a then b gives the same counters as adding b then a, and as adding their sum. */
  lemma PlusOrderIrrelevant(u: UsageCounts, a: UsageCounts, b: UsageCounts)
    ensures Plus(Plus(u, a), b) == Plus(Plus(u, b), a)
    ensures Plus(Plus(u, a), b) == Plus(u, Plus(a, b))
  {
  }

  datatype ModelInfo = ModelInfo(
    id: string,
    name: string,
    provider: Provider,
    capabilities: seq<ModelCapability>,
    maxTokens: int,
    maxInputTokens: int,
    maxOutputTokens: int,
    supportsSystemMessages: bool,
    supportsImages: bool,
    supportsAudio: bool,
    description: string)

  /** ModelInfo.HasCapability: a linear search of the capability list. */
  method HasCapability(info: ModelInfo, capability: ModelCapability) returns (found: bool)
    ensures found <==> capability in info.capabilities
  {
    var i := 0;
    while i < |info.capabilities|
      invariant 0 <= i <= |info.capabilities|
      invariant capability !in info.capabilities[..i]
    {
      if info.capabilities[i] == capability {
        return true;
      }
      i := i + 1;
    }
    assert info.capabilities[..i] == info.capabilities;
    return false;
  }
}
