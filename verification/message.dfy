/** The capability contract the pool is generic over: a result type `T`
    (MessageData), an input type `R` (MessageInput) and an envelope type `S`
    (Message) binding the two.  The three traits become one record of
    operations; `storedInput` and `produce` are observations that name what
    the trait's doc comments talk about (the stored input, and the data a
    pass computes from it). */
module Message {

  datatype MessageOps<!T, !R, !S> = MessageOps(
    /** MessageData::new */
    newData: () -> T,
    /** MessageInput::new */
    newInput: () -> R,
    /** Message::new: an envelope holding default values */
    newMessage: () -> S,
    /** Message::set_input */
    setInput: (S, R) -> S,
    /** Message::work: one worker pass over the envelope */
    work: S -> S,
    /** Message::clone_message_data */
    cloneMessageData: S -> T,
    /** the input an envelope currently holds */
    storedInput: S -> R,
    /** the data a pass computes from an input and the data held before it */
    produce: (R, T) -> T
  )

  /** `set_input` stores the given input, replacing the previous one. */
  ghost predicate SetInputStores<T, R(!new), S(!new)>(ops: MessageOps<T, R, S>)
  {
    forall s, r :: ops.storedInput(ops.setInput(s, r)) == r
  }

  /** `work` uses the stored input to produce the new data, replacing the
      data held before.  What it leaves as the input is not constrained. */
  ghost predicate WorkUsesStoredInput<T, R(!new), S(!new)>(ops: MessageOps<T, R, S>)
  {
    forall s :: ops.cloneMessageData(ops.work(s)) == ops.produce(ops.storedInput(s), ops.cloneMessageData(s))
  }

  /** `Message::new` constructs an envelope with default values. */
  ghost predicate NewIsDefault<T, R(!new), S(!new)>(ops: MessageOps<T, R, S>)
  {
    && ops.storedInput(ops.newMessage()) == ops.newInput()
    && ops.cloneMessageData(ops.newMessage()) == ops.newData()
  }

  /** The contract an implementation of the three traits promises. */
  ghost predicate Lawful<T, R(!new), S(!new)>(ops: MessageOps<T, R, S>)
  {
    SetInputStores(ops) && WorkUsesStoredInput(ops) && NewIsDefault(ops)
  }

  /** Message::new_message_input, a provided method of the trait: the
      default input, the one a new envelope holds. */
  function NewMessageInput<T, R(!new), S(!new)>(ops: MessageOps<T, R, S>): (r: R)
    ensures r == ops.newInput()
    ensures Lawful(ops) ==> r == ops.storedInput(ops.newMessage())
  {
    ops.newInput()
  }

  /** Message::new_message_data, a provided method of the trait: the
      default data, the data a new envelope holds. */
  function NewMessageData<T, R(!new), S(!new)>(ops: MessageOps<T, R, S>): (t: T)
    ensures t == ops.newData()
    ensures Lawful(ops) ==> t == ops.cloneMessageData(ops.newMessage())
  {
    ops.newData()
  }

  /** The envelope the feeder builds for a fresh input: `S::new()` followed
      by `set_input`. */
  function Wrap<T, R, S>(ops: MessageOps<T, R, S>, input: R): S
  {
    ops.setInput(ops.newMessage(), input)
  }

  /** What a collected envelope yields: the data a pass computed from the
      input it was given. */
  lemma CollectedData<T, R(!new), S(!new)>(ops: MessageOps<T, R, S>, s: S, r: R)
    requires Lawful(ops)
    ensures ops.cloneMessageData(ops.work(ops.setInput(s, r)))
         == ops.produce(r, ops.cloneMessageData(ops.setInput(s, r)))
  {
  }

  /** A fresh envelope holds the defaults the provided methods return, and
      wrapping an input into it stores exactly that input. */
  lemma FreshEnvelope<T, R(!new), S(!new)>(ops: MessageOps<T, R, S>, input: R)
    requires Lawful(ops)
    ensures ops.storedInput(ops.newMessage()) == NewMessageInput(ops)
    ensures ops.cloneMessageData(ops.newMessage()) == NewMessageData(ops)
    ensures ops.storedInput(Wrap(ops, input)) == input
  {
  }
}
