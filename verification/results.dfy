/** Option and Result values, and the ways a run of the scripts can fail. */
module Results {

  datatype Option<+T> = None | Some(value: T)

  /** The failures the scripts can meet once HTTP is taken out. In the scripts each of
      them is an exception that aborts the whole run. */
  datatype Failure =
    | ParticipantNotFound        // `find` over participantIdentities gave undefined
    | SlotMissing(index: int)    // participants[index] is undefined
    | MalformedLine(line: nat)   // a roster line without a decimal account id or match id
    | NoEntries                  // Object.keys of the missing first entry
    | NotAFunction(name: string) // a call of a method that arrays do not have

  datatype Result<+T> = Ok(value: T) | Err(error: Failure)
}
