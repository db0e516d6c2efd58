/** The reply to WAIT_FOR_CHANGE as the switch reads it. */
module WaitReply {
  import opened WaitRecord
  import opened WaitModel
  import WaitOwnership

  const READABLE: bv32 := 1
  const WRITABLE: bv32 := 2
  const SUPPORTED: bv32 := 3

  /** The size of the response the driver writes and the switch expects. */
  const RESPONSE_BYTES: nat := 4

  /** The driver's reading of an interest word. */
  function MaskOf(interest: bv32): Mask {
    Mask(interest & READABLE != 0, interest & WRITABLE != 0)
  }

  function WordOf(mask: Mask): bv32 {
    (if mask.readable then READABLE else 0) | (if mask.writable then WRITABLE else 0)
  }

  /** What reaches the switch: the bytes written and the satisfied word. */
  datatype Response = Response(bytes: nat, satisfied: bv32)

  function ReplyOf(answer: Answer): Response {
    Response(RESPONSE_BYTES, WordOf(answer.satisfied))
  }

  /** The interest words the driver admits. */
  predicate Admitted(interest: bv32) {
    interest != 0 && interest & !SUPPORTED == 0
  }

  /** The switch's check of a reply against the interest it sent. */
  predicate Accepts(reply: Response, interest: bv32) {
    reply.bytes == RESPONSE_BYTES && reply.satisfied != 0 && reply.satisfied & !interest == 0
  }

  lemma AdmittedRoundTrip(interest: bv32)
    ensures Admitted(interest) ==> WordOf(MaskOf(interest)) == interest && !MaskOf(interest).Empty()
  {
    if Admitted(interest) {
      assert interest == 1 || interest == 2 || interest == 3;
    }
  }

  /** The switch accepts exactly the non-empty replies within its interest. */
  lemma AcceptsIff(interest: bv32, answer: Answer)
    requires Admitted(interest) && MaskOf(interest) == answer.want
    ensures Accepts(ReplyOf(answer), interest) <==> !answer.satisfied.Empty() && answer.satisfied.Within(answer.want)
  {
    AdmittedRoundTrip(interest);
  }

  /** Every successful reply of every run passes the switch's check against the word the
      switch sent. */
  lemma RepliesPassValidation(run: seq<State>, i: nat, k: nat, interest: bv32)
    requires IsRun(run) && i < |run| && k < |run[i].audit.answers|
    requires Admitted(interest) && MaskOf(interest) == run[i].audit.answers[k].want
    ensures Accepts(ReplyOf(run[i].audit.answers[k]), interest)
  {
    WaitOwnership.RepliesStayInInterest(run, i, k);
    AcceptsIff(interest, run[i].audit.answers[k]);
  }
}
