/** The states of the scanning state machine and the effect a state's
    transition has on the tokenizer's cursor. */
module ScannerStates {
  import opened Tokens

  /** One variant per state class. Only the Integer transition is part of
      this model; each other variant keeps just the value it is created
      with where it is created here (the TimeSpan seed, the keyword-trie
      node reached, written as the path that leads to it). */
  datatype ScannerState =
    | Empty
    | Integer(current: int)
    | Real
    | TimeSpan(magnitude: int)
    | Key(node: string)
    | EnumerationValue(node: string)
    | PlainText
    | End

  /** A primitive a state's transition performs on the tokenizer. */
  datatype Action =
    | Advance
    | DiscardBuffer
    | Emit(kind: TokenKind, content: Payload, isCompleteEnum: bool)

  /** What a transition of a state outside this model does on one step:
      the cursor primitives it performs, in order, and the state it returns. */
  datatype Reaction = Reaction(actions: seq<Action>, next: ScannerState)
}
