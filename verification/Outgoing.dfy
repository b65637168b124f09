/** One direction of a session. The caller keeps the counter: it passes a number with every message, and the
    number is spent as soon as the message is encrypted, even if sending it then fails. */
module Outgoing {
  import opened Bytes
  import opened SecureChannel
  import opened Framing

  /** `sealed` are the numbers given to encryption, `messages` what was then sent; `failed` tells that encrypting or
      sending has failed. */
  class Pipe<M> {
    var sealed: seq<nat>
    var messages: seq<M>
    var failed: bool

    constructor ()
      ensures sealed == [] && messages == [] && !failed
    {
      sealed, messages, failed := [], [], false;
    }

    /** No number has been spent twice. */
    ghost predicate NoRepeats()
      reads this
    {
      forall j, k :: 0 <= j < k < |sealed| ==> sealed[j] != sealed[k]
    }

    /** From `next` on all numbers are unspent. */
    ghost predicate Unspent(next: nat)
      reads this
    {
      NoRepeats() && forall k :: 0 <= k < |sealed| ==> sealed[k] < next
    }

    /** Nothing has failed: message `k` was sent under number `k`, and `next` is the one after the last. */
    ghost predicate InStep(next: nat)
      reads this
    {
      |sealed| == |messages| == next && forall k :: 0 <= k < next ==> sealed[k] == k
    }

    /** The message is encrypted and sent; either may fail. */
    method Send(sequence: nat, m: M) returns (ok: bool)
      modifies this
      ensures messages == if ok then old(messages) + [m] else old(messages)
      ensures failed == (old(failed) || !ok)
      ensures sealed == old(sealed) + [sequence] || (!ok && sealed == old(sealed))
      ensures old(Unspent(sequence)) ==> Unspent(sequence + 1)
      ensures ok && old(InStep(sequence)) ==> InStep(sequence + 1)
    {
      var encrypts: bool := *;
      if !encrypts {
        failed := true;
        return false;
      }
      sealed := sealed + [sequence];
      var sends: bool := *;
      if !sends {
        failed := true;
        return false;
      }
      messages := messages + [m];
      ok := true;
    }

    /** No nonce is used twice in this direction, as long as the counter counts. */
    lemma NoNonceReuse(prefix: seq<byte>, j: nat, k: nat)
      requires NoRepeats() && j < k < |sealed|
      requires sealed[j] <= MAX_SAFE_INTEGER && sealed[k] <= MAX_SAFE_INTEGER
      ensures prefix + BigEndian(sealed[j], 8) != prefix + BigEndian(sealed[k], 8)
    {
      SafeFits(sealed[j]);
      SafeFits(sealed[k]);
      if prefix + BigEndian(sealed[j], 8) == prefix + BigEndian(sealed[k], 8) {
        NonceIsInjective(prefix, sealed[j], sealed[k]);
      }
    }
  }
}
