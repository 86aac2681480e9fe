/**
 * src/utils/stateHelpers.ts: status messages for failed regenerations and
 * failed judge calls, and the set-state updaters that add an item to, or
 * remove one from, a copy of the previous set.
 *
 * The `setStatus` callback becomes the status value the helper passes to
 * it. The updaters copy the previous set before changing the copy, so over
 * Dafny's immutable sets they are union and difference: the previous set is
 * never changed.
 */
module StateHelpers {
  import opened Strings

  /** `StatusType`. */
  datatype StatusType = Info | Success | Error | Warning

  /** `Status`: the message shown in the status bar and its kind. */
  datatype Status = Status(message: string, kind: StatusType)

  /** The thrown value a handler receives: an `Error` with its message, or anything else. */
  datatype Thrown = ErrorObject(message: string) | OtherValue

  const REGENERATION_PREFIX: string := "Error regenerating: "
  const JUDGE_PREFIX: string := "Judge error: "
  const UNKNOWN_ERROR: string := "Unknown error"

  /** `error instanceof Error ? error.message : 'Unknown error'`. */
  function ErrorText(error: Thrown): (t: string)
    ensures error.OtherValue? ==> t == UNKNOWN_ERROR
    ensures error.ErrorObject? ==> t == error.message
  {
    match error
    case ErrorObject(m) => m
    case OtherValue => UNKNOWN_ERROR
  }

  /** `handleRegenerationError(error, setStatus, kind)`; the kind is `'error'` or `'warning'`. */
  function HandleRegenerationError(error: Thrown, kind: StatusType): (s: Status)
    requires kind == Error || kind == Warning
    ensures s.kind == kind
    ensures StartsWith(s.message, REGENERATION_PREFIX)
    ensures s.message[|REGENERATION_PREFIX|..] == ErrorText(error)
  {
    Status(REGENERATION_PREFIX + ErrorText(error), kind)
  }

  /** `handleJudgeError(error, setStatus)`: always a warning. */
  function HandleJudgeError(error: Thrown): (s: Status)
    ensures s.kind == Warning
    ensures StartsWith(s.message, JUDGE_PREFIX)
    ensures s.message[|JUDGE_PREFIX|..] == ErrorText(error)
  {
    Status(JUDGE_PREFIX + ErrorText(error), Warning)
  }

  /** The two helpers never produce the same message, and each determines the error text it shows. */
  lemma MessagesIdentifyTheirSource(e1: Thrown, e2: Thrown, kind: StatusType)
    requires kind == Error || kind == Warning
    ensures HandleRegenerationError(e1, kind).message != HandleJudgeError(e2).message
    ensures HandleRegenerationError(e1, kind) == HandleRegenerationError(e2, kind) <==> ErrorText(e1) == ErrorText(e2)
    ensures HandleJudgeError(e1) == HandleJudgeError(e2) <==> ErrorText(e1) == ErrorText(e2)
  {
    assert HandleRegenerationError(e1, kind).message[0] == 'E';
    assert HandleJudgeError(e2).message[0] == 'J';
    assert (REGENERATION_PREFIX + ErrorText(e1))[|REGENERATION_PREFIX|..] == ErrorText(e1);
    assert (REGENERATION_PREFIX + ErrorText(e2))[|REGENERATION_PREFIX|..] == ErrorText(e2);
    assert (JUDGE_PREFIX + ErrorText(e1))[|JUDGE_PREFIX|..] == ErrorText(e1);
    assert (JUDGE_PREFIX + ErrorText(e2))[|JUDGE_PREFIX|..] == ErrorText(e2);
  }

  /** `addToSet(item)`: the updater that returns a copy of the previous set with `item` added. */
  function AddToSet<T(!new)>(item: T): (update: set<T> -> set<T>)
    ensures forall prev :: item in update(prev) && prev <= update(prev)
    ensures forall prev :: update(prev) - prev <= {item}
  {
    prev => prev + {item}
  }

  /** `removeFromSet(item)`: the updater that returns a copy of the previous set without `item`. */
  function RemoveFromSet<T(!new)>(item: T): (update: set<T> -> set<T>)
    ensures forall prev :: item !in update(prev) && update(prev) <= prev
    ensures forall prev :: prev - update(prev) <= {item}
  {
    prev => prev - {item}
  }

  /** Removing an item that adding put in restores the previous set. */
  lemma RemoveUndoesAdd<T(!new)>(item: T, prev: set<T>)
    requires item !in prev
    ensures RemoveFromSet(item)(AddToSet(item)(prev)) == prev
  {
  }

  /** Both updaters are idempotent. */
  lemma UpdatersIdempotent<T(!new)>(item: T, prev: set<T>)
    ensures AddToSet(item)(AddToSet(item)(prev)) == AddToSet(item)(prev)
    ensures RemoveFromSet(item)(RemoveFromSet(item)(prev)) == RemoveFromSet(item)(prev)
  {
  }
}
