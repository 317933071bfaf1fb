/**
 * Helpers of the diffusion pipeline: its own copy of the prompt-to-file-name
 * rule and the index part of the evenly spaced schedule.
 */
module DiffusionUtils {
  import Text
  import Tools

  /** The scheduler, a dash, then the prompt's lower-cased words joined by underscores. */
  function Rename(prompt: string, scheduler: string): string
  {
    scheduler + "-" + Text.Join(Tools.LowerWords(Text.Words(prompt)), "_")
  }

  /** The pipeline's rename agrees with the shared one on every input. */
  lemma RenameAgrees(prompt: string, scheduler: string)
    ensures Rename(prompt, scheduler) == Tools.Rename(prompt, scheduler)
  {
  }

  /**
   * The positions of an evenly spaced schedule of `steps` points: one per
   * point, counting up from zero, none for a negative count.
   */
  method LinspaceIndices(steps: int) returns (v: seq<nat>)
    ensures |v| == if steps < 0 then 0 else steps
    ensures forall k :: 0 <= k < |v| ==> v[k] == k
  {
    v := [];
    var k := 0;
    while k < steps
      invariant 0 <= k && (steps >= 0 ==> k <= steps) && (steps < 0 ==> k == 0)
      invariant |v| == k && forall j :: 0 <= j < k ==> v[j] == j
    {
      v := v + [k];
      k := k + 1;
    }
  }
}
