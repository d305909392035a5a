/**
 * The shape every Raft decoder shares: a flat RESP array read as
 * alternating keys and values. Elements at even positions must be bulk
 * strings and become the current key; each element at an odd position is
 * handed, with that key, to a message-specific step that updates the
 * decoder's local variables or rejects the message. A trailing key with no
 * value is read and then never used.
 */
module KeyValue {
  import opened Wrappers
  import opened Resp

  /** The whole wire message: `["type", typ, "msg", body]`. */
  function Envelope(typ: string, body: RESP): RESP
  {
    Arr([Bulk("type"), Bulk(typ), Bulk("msg"), body])
  }

  /** The for-loop over `msg.array`, from position `i` on, with `acc` the locals and `lastKey` the current key. */
  function Walk<S>(a: seq<RESP>, i: nat, acc: S, lastKey: string,
                   step: (S, string, RESP) -> Result<S, DecodeError>): Result<S, DecodeError>
    requires i <= |a|
    decreases |a| - i
  {
    if i == |a| then Ok(acc)
    else if i % 2 == 0 then
      if a[i].Bulk? then Walk(a, i + 1, acc, a[i].str, step) else Err(KeyNotString(i))
    else
      match step(acc, lastKey, a[i])
      case Err(e) => Err(e)
      case Ok(acc') => Walk(a, i + 1, acc', lastKey, step)
  }

  /** One accepted key/value pair advances the walk by two positions. */
  lemma WalkPair<S>(a: seq<RESP>, i: nat, acc: S, lastKey: string,
                    step: (S, string, RESP) -> Result<S, DecodeError>)
    requires i % 2 == 0 && i + 1 < |a| && a[i].Bulk? && step(acc, a[i].str, a[i + 1]).Ok?
    ensures Walk(a, i, acc, lastKey, step) == Walk(a, i + 2, step(acc, a[i].str, a[i + 1]).value, a[i].str, step)
  {
  }

  /** A non-string element at an even position makes the walk fail. */
  lemma {:induction false} NonStringKeyRejected<S>(a: seq<RESP>, i: nat, acc: S, lastKey: string,
                                                  step: (S, string, RESP) -> Result<S, DecodeError>, k: nat)
    requires i <= k < |a| && k % 2 == 0 && !a[k].Bulk?
    ensures Walk(a, i, acc, lastKey, step).Err?
    decreases k - i
  {
    if i < k {
      if i % 2 == 0 {
        if a[i].Bulk? {
          NonStringKeyRejected(a, i + 1, acc, a[i].str, step, k);
        }
      } else if step(acc, lastKey, a[i]).Ok? {
        NonStringKeyRejected(a, i + 1, step(acc, lastKey, a[i]).value, lastKey, step, k);
      }
    }
  }

  /** A key/value pair that the step rejects in every state makes the walk fail. */
  lemma {:induction false} RejectedPairRejected<S>(a: seq<RESP>, i: nat, acc: S, lastKey: string,
                                                  step: (S, string, RESP) -> Result<S, DecodeError>,
                                                  k: nat, key: string, value: RESP)
    requires i <= k && k + 1 < |a| && k % 2 == 0 && a[k] == Bulk(key) && a[k + 1] == value
    requires forall s: S :: step(s, key, value).Err?
    ensures Walk(a, i, acc, lastKey, step).Err?
    decreases k - i
  {
    if i < k {
      if i % 2 == 0 {
        if a[i].Bulk? {
          RejectedPairRejected(a, i + 1, acc, a[i].str, step, k, key, value);
        }
      } else if step(acc, lastKey, a[i]).Ok? {
        RejectedPairRejected(a, i + 1, step(acc, lastKey, a[i]).value, lastKey, step, k, key, value);
      }
    } else {
      if a[k].Bulk? {
        assert step(acc, a[k].str, a[k + 1]).Err?;
      }
    }
  }

  /**
   * Once `isSet` holds it keeps holding, and while it holds the step rejects
   * any value for `key`: then any later occurrence of `key` fails the walk.
   */
  lemma {:induction false} SetKeyRejected<S>(a: seq<RESP>, i: nat, acc: S, lastKey: string,
                                            step: (S, string, RESP) -> Result<S, DecodeError>,
                                            isSet: S -> bool, key: string, k: nat)
    requires i % 2 == 0 && i <= k && k + 1 < |a| && k % 2 == 0 && a[k] == Bulk(key)
    requires isSet(acc)
    requires forall s: S, v: RESP :: isSet(s) ==> step(s, key, v).Err?
    requires forall s: S, k': string, v: RESP :: isSet(s) && step(s, k', v).Ok? ==> isSet(step(s, k', v).value)
    ensures Walk(a, i, acc, lastKey, step).Err?
    decreases k - i
  {
    if i < k && a[i].Bulk? && step(acc, a[i].str, a[i + 1]).Ok? {
      WalkPair(a, i, acc, lastKey, step);
      SetKeyRejected(a, i + 2, step(acc, a[i].str, a[i + 1]).value, a[i].str, step, isSet, key, k);
    } else if i == k {
      WalkPair'(a, i, acc, lastKey, step);
    }
  }

  /** The two steps at an even position, whether or not the pair is accepted. */
  lemma WalkPair'<S>(a: seq<RESP>, i: nat, acc: S, lastKey: string,
                     step: (S, string, RESP) -> Result<S, DecodeError>)
    requires i % 2 == 0 && i + 1 < |a| && a[i].Bulk?
    ensures step(acc, a[i].str, a[i + 1]).Err? ==> Walk(a, i, acc, lastKey, step) == Err(step(acc, a[i].str, a[i + 1]).error)
  {
  }

  /**
   * Duplicate detection: if the first occurrence of `key` (at `j`) leaves
   * `isSet` true, a second occurrence (at `k`) fails the walk.
   */
  lemma {:induction false} DuplicateKeyRejected<S>(a: seq<RESP>, i: nat, acc: S, lastKey: string,
                                                  step: (S, string, RESP) -> Result<S, DecodeError>,
                                                  isSet: S -> bool, key: string, first: RESP, j: nat, k: nat)
    requires i % 2 == 0 && i <= j < k && k + 1 < |a| && j % 2 == 0 && k % 2 == 0
    requires a[j] == Bulk(key) && a[j + 1] == first && a[k] == Bulk(key)
    requires forall s: S :: step(s, key, first).Ok? ==> isSet(step(s, key, first).value)
    requires forall s: S, v: RESP :: isSet(s) ==> step(s, key, v).Err?
    requires forall s: S, k': string, v: RESP :: isSet(s) && step(s, k', v).Ok? ==> isSet(step(s, k', v).value)
    ensures Walk(a, i, acc, lastKey, step).Err?
    decreases j - i
  {
    if a[i].Bulk? && step(acc, a[i].str, a[i + 1]).Ok? {
      WalkPair(a, i, acc, lastKey, step);
      if i < j {
        DuplicateKeyRejected(a, i + 2, step(acc, a[i].str, a[i + 1]).value, a[i].str, step, isSet, key, first, j, k);
      } else {
        SetKeyRejected(a, i + 2, step(acc, a[i].str, a[i + 1]).value, a[i].str, step, isSet, key, k);
      }
    } else if a[i].Bulk? {
      WalkPair'(a, i, acc, lastKey, step);
    }
  }

  /**
   * A key that never occurs leaves its field as it was: if the step keeps
   * `isSet` false for every other key, a walk that succeeds ends with it false.
   */
  lemma {:induction false} AbsentKeyUnset<S>(a: seq<RESP>, i: nat, acc: S, lastKey: string,
                                            step: (S, string, RESP) -> Result<S, DecodeError>,
                                            isSet: S -> bool, key: string)
    requires i % 2 == 0 && i <= |a|
    requires forall j :: i <= j && j + 1 < |a| && j % 2 == 0 ==> a[j] != Bulk(key)
    requires !isSet(acc)
    requires forall s: S, k': string, v: RESP :: k' != key && !isSet(s) && step(s, k', v).Ok? ==> !isSet(step(s, k', v).value)
    ensures Walk(a, i, acc, lastKey, step).Ok? ==> !isSet(Walk(a, i, acc, lastKey, step).value)
    decreases |a| - i
  {
    if i + 1 < |a| && a[i].Bulk? && step(acc, a[i].str, a[i + 1]).Ok? {
      WalkPair(a, i, acc, lastKey, step);
      AbsentKeyUnset(a, i + 2, step(acc, a[i].str, a[i + 1]).value, a[i].str, step, isSet, key);
    }
  }

  /** A key left dangling at the end of an even-length array changes nothing. */
  lemma {:induction false} TrailingKeyIgnored<S>(a: seq<RESP>, i: nat, acc: S, lastKey: string,
                                                step: (S, string, RESP) -> Result<S, DecodeError>, key: string)
    requires i <= |a| && |a| % 2 == 0
    ensures Walk(a + [Bulk(key)], i, acc, lastKey, step) == Walk(a, i, acc, lastKey, step)
    decreases |a| - i
  {
    var b := a + [Bulk(key)];
    if i < |a| {
      assert b[i] == a[i];
      if i % 2 == 0 {
        if a[i].Bulk? {
          TrailingKeyIgnored(a, i + 1, acc, a[i].str, step, key);
        }
      } else if step(acc, lastKey, a[i]).Ok? {
        TrailingKeyIgnored(a, i + 1, step(acc, lastKey, a[i]).value, lastKey, step, key);
      }
    } else {
      assert b[i] == Bulk(key);
    }
  }

  /** Walking `p + b` past an even-length prefix `p` succeeds as walking `b` does. */
  lemma {:induction false} WalkShift<S>(p: seq<RESP>, b: seq<RESP>, i: nat, acc: S, lastKey: string,
                                       step: (S, string, RESP) -> Result<S, DecodeError>)
    requires |p| % 2 == 0 && i <= |b|
    ensures Walk(b, i, acc, lastKey, step).Ok? ==> Walk(p + b, |p| + i, acc, lastKey, step) == Walk(b, i, acc, lastKey, step)
    decreases |b| - i
  {
    if i < |b| {
      assert (p + b)[|p| + i] == b[i];
      if i % 2 == 0 {
        if b[i].Bulk? {
          WalkShift(p, b, i + 1, acc, b[i].str, step);
        }
      } else if step(acc, lastKey, b[i]).Ok? {
        WalkShift(p, b, i + 1, step(acc, lastKey, b[i]).value, lastKey, step);
      }
    }
  }
}
